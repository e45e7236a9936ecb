/** The front of a flashcard: splitting the stored word into the displayed word and its
    phonetic spelling with the regular expression `(.+?) /(.+?)/`, splitting the explanation
    into a part of speech and a definition with `\((.*?)\)\s+(.*)`, and the card's flip and
    image-picker flags. Both expressions follow the JVM's `java.util.regex` semantics:
    `find` returns the match that starts leftmost and, among those, the first the
    backtracking engine tries. */
module Flashcard {
  import opened Common
  import opened KotlinText

  // ---------------------------------------------------------------------------------------
  // Character classes
  // ---------------------------------------------------------------------------------------

  /** `.` without DOTALL: every character except the line terminators "\n", "\r", U+0085,
      U+2028 and U+2029. */
  predicate Dot(c: char) {
    c != '\n' && c != '\r' && c != '\U{85}' && c != '\U{2028}' && c != '\U{2029}'
  }

  /** `\s` without UNICODE_CHARACTER_CLASS: space, tab, "\n", U+000B, U+000C and "\r". */
  predicate RegexSpace(c: char) {
    c == ' ' || c == '\t' || c == '\n' || c == '\U{0B}' || c == '\U{0C}' || c == '\r'
  }

  /** Every character of `s[from..to]` matches `.`. */
  predicate AllDot(s: string, from: nat, to: nat)
    requires from <= to <= |s|
  {
    forall k :: from <= k < to ==> Dot(s[k])
  }

  // ---------------------------------------------------------------------------------------
  // The phonetic split: (.+?) /(.+?)/
  // ---------------------------------------------------------------------------------------

  /** A match of `(.+?) /(.+?)/` starting at `start`: the first group is
      `s[start..space]`, the literal " /" sits at `space`, the second group is
      `s[space + 2..slash]` and the closing "/" sits at `slash`. */
  predicate PhoneticMatch(s: string, start: nat, space: nat, slash: nat) {
    && start < space && space + 2 < slash < |s|
    && AllDot(s, start, space) && s[space] == ' ' && s[space + 1] == '/'
    && AllDot(s, space + 2, slash) && s[slash] == '/'
  }

  /** The order in which `find` prefers matches: an earlier start, then (both groups being
      lazy) a shorter first group, then a shorter second group. */
  predicate Precedes(i: nat, e: nat, q: nat, i': nat, e': nat, q': nat) {
    i < i' || (i == i' && (e < e' || (e == e' && q <= q')))
  }

  /** The match `find` returns: it precedes every other match. */
  ghost predicate FirstPhoneticMatch(s: string, i: nat, e: nat, q: nat) {
    && PhoneticMatch(s, i, e, q)
    && forall i': nat, e': nat, q': nat :: PhoneticMatch(s, i', e', q') ==> Precedes(i, e, q, i', e', q')
  }

  datatype WordMatch = WordMatch(start: nat, space: nat, slash: nat)

  /** The lazy second group: from `q` on, the first "/" reached through `.` characters. */
  function CloseSlash(s: string, q: nat): Option<nat>
    decreases |s| - q
  {
    if q >= |s| then None
    else if s[q] == '/' then Some(q)
    else if Dot(s[q]) then CloseSlash(s, q + 1)
    else None
  }

  /** The second group starting at `p`: at least one character, then the closing "/". */
  function SecondGroup(s: string, p: nat): Option<nat> {
    if p < |s| && Dot(s[p]) then CloseSlash(s, p + 1) else None
  }

  /** The lazy first group: from `e` on, the first " /" reached through `.` characters after
      which the second group matches. */
  function SpaceSlash(s: string, e: nat): Option<(nat, nat)>
    decreases |s| - e
  {
    if e + 1 < |s| && s[e] == ' ' && s[e + 1] == '/' && SecondGroup(s, e + 2).Some? then
      Some((e, SecondGroup(s, e + 2).value))
    else if e < |s| && Dot(s[e]) then SpaceSlash(s, e + 1)
    else None
  }

  /** The match starting at `i`, if any: the first group takes at least one character. */
  function PhoneticAt(s: string, i: nat): Option<(nat, nat)> {
    if i < |s| && Dot(s[i]) then SpaceSlash(s, i + 1) else None
  }

  /** `find` from `i` on: the first start at which the expression matches. */
  function FindPhoneticFrom(s: string, i: nat): Option<WordMatch>
    decreases |s| - i
  {
    if i >= |s| then None
    else match PhoneticAt(s, i)
      case Some((e, q)) => Some(WordMatch(i, e, q))
      case None => FindPhoneticFrom(s, i + 1)
  }

  function FindPhonetic(s: string): Option<WordMatch> {
    FindPhoneticFrom(s, 0)
  }

  /** The closing "/" found from `q` is the first one reachable through `.` characters. */
  lemma {:induction false} CloseSlashSpec(s: string, q: nat)
    ensures CloseSlash(s, q).Some? ==>
      var r := CloseSlash(s, q).value;
      q <= r < |s| && s[r] == '/' && AllDot(s, q, r)
    ensures forall r: nat :: q <= r < |s| && s[r] == '/' && AllDot(s, q, r) ==>
      CloseSlash(s, q).Some? && CloseSlash(s, q).value <= r
    decreases |s| - q
  {
    if q < |s| && s[q] != '/' && Dot(s[q]) {
      CloseSlashSpec(s, q + 1);
    }
  }

  lemma SecondGroupSpec(s: string, p: nat)
    ensures SecondGroup(s, p).Some? ==>
      var r := SecondGroup(s, p).value;
      p < r < |s| && s[r] == '/' && AllDot(s, p, r)
    ensures forall r: nat :: p < r < |s| && s[r] == '/' && AllDot(s, p, r) ==>
      SecondGroup(s, p).Some? && SecondGroup(s, p).value <= r
  {
    CloseSlashSpec(s, p + 1);
  }

  /** What follows the first group when it ends at `e`, its characters from `e0` on being
      `.` characters. */
  predicate PhoneticTail(s: string, e0: nat, e: nat, q: nat) {
    && e0 <= e && e + 2 < q < |s| && AllDot(s, e0, e) && s[e] == ' ' && s[e + 1] == '/'
    && AllDot(s, e + 2, q) && s[q] == '/'
  }

  lemma {:induction false} SpaceSlashSpec(s: string, e0: nat)
    ensures SpaceSlash(s, e0).Some? ==>
      var (e, q) := SpaceSlash(s, e0).value;
      && PhoneticTail(s, e0, e, q)
      && forall e': nat, q': nat :: PhoneticTail(s, e0, e', q') ==> e < e' || (e == e' && q <= q')
    ensures SpaceSlash(s, e0).None? ==> forall e': nat, q': nat :: !PhoneticTail(s, e0, e', q')
    decreases |s| - e0
  {
    SecondGroupSpec(s, e0 + 2);
    if e0 + 1 < |s| && s[e0] == ' ' && s[e0 + 1] == '/' && SecondGroup(s, e0 + 2).Some? {
    } else if e0 < |s| && Dot(s[e0]) {
      SpaceSlashSpec(s, e0 + 1);
      forall e': nat, q': nat | PhoneticTail(s, e0, e', q') ensures PhoneticTail(s, e0 + 1, e', q') {
      }
    } else {
      forall e': nat, q': nat ensures !PhoneticTail(s, e0, e', q') {
      }
    }
  }

  lemma PhoneticAtSpec(s: string, i: nat)
    ensures PhoneticAt(s, i).Some? ==>
      var (e, q) := PhoneticAt(s, i).value;
      && PhoneticMatch(s, i, e, q)
      && forall e': nat, q': nat :: PhoneticMatch(s, i, e', q') ==> e < e' || (e == e' && q <= q')
    ensures PhoneticAt(s, i).None? ==> forall e': nat, q': nat :: !PhoneticMatch(s, i, e', q')
  {
    SpaceSlashSpec(s, i + 1);
    forall e': nat, q': nat | PhoneticMatch(s, i, e', q') ensures PhoneticTail(s, i + 1, e', q') {
    }
    if PhoneticAt(s, i).Some? {
      var (e, q) := PhoneticAt(s, i).value;
      assert PhoneticTail(s, i + 1, e, q);
    }
  }

  lemma {:induction false} FindPhoneticFromSpec(s: string, i0: nat)
    ensures FindPhoneticFrom(s, i0).Some? ==>
      var m := FindPhoneticFrom(s, i0).value;
      && i0 <= m.start && PhoneticMatch(s, m.start, m.space, m.slash)
      && forall i': nat, e': nat, q': nat :: i0 <= i' && PhoneticMatch(s, i', e', q') ==>
           Precedes(m.start, m.space, m.slash, i', e', q')
    ensures FindPhoneticFrom(s, i0).None? ==>
      forall i': nat, e': nat, q': nat :: i0 <= i' ==> !PhoneticMatch(s, i', e', q')
    decreases |s| - i0
  {
    if i0 < |s| {
      PhoneticAtSpec(s, i0);
      if PhoneticAt(s, i0).None? {
        FindPhoneticFromSpec(s, i0 + 1);
      }
    }
  }

  /** `find` returns exactly the match that precedes all others, and nothing when there is
      no match at all. */
  lemma FindPhoneticSpec(s: string)
    ensures forall i: nat, e: nat, q: nat ::
      FindPhonetic(s) == Some(WordMatch(i, e, q)) <==> FirstPhoneticMatch(s, i, e, q)
    ensures FindPhonetic(s).None? <==> forall i: nat, e: nat, q: nat :: !PhoneticMatch(s, i, e, q)
  {
    FindPhoneticFromSpec(s, 0);
    forall i: nat, e: nat, q: nat | FirstPhoneticMatch(s, i, e, q)
      ensures FindPhonetic(s) == Some(WordMatch(i, e, q))
    {
      var m := FindPhonetic(s).value;
      assert Precedes(m.start, m.space, m.slash, i, e, q);
      assert Precedes(i, e, q, m.start, m.space, m.slash);
    }
  }

  /** The word `FlashcardFront` shows and its phonetic spelling: with a match, the first group
      trimmed and the second group between slashes; without one, the whole stored word and
      no phonetic. */
  function SplitWord(word: string): (r: (string, Option<string>))
    ensures FindPhonetic(word).None? ==> r == (word, None)
    ensures r.1.Some? ==> |r.1.value| >= 3 && r.1.value[0] == '/' && r.1.value[|r.1.value| - 1] == '/'
  {
    match FindPhonetic(word)
    case Some(m) =>
      FindPhoneticSpec(word);
      (Trim(word[m.start..m.space]), Some("/" + word[m.space + 2..m.slash] + "/"))
    case None => (word, None)
  }

  /** The split of a word whose first match is known. */
  lemma SplitWordOfMatch(word: string, i: nat, e: nat, q: nat)
    requires FirstPhoneticMatch(word, i, e, q)
    ensures SplitWord(word) == (Trim(word[i..e]), Some("/" + word[e + 2..q] + "/"))
  {
    FindPhoneticSpec(word);
  }

  /** A word with no match is shown whole, with no phonetic. */
  lemma SplitWordWithoutMatch(word: string)
    requires forall i: nat, e: nat, q: nat :: !PhoneticMatch(word, i, e, q)
    ensures SplitWord(word) == (word, None)
  {
    FindPhoneticSpec(word);
  }

  /** `s` holds no space directly followed by "/". */
  predicate NoSpaceSlash(s: string) {
    forall k :: 0 <= k < |s| - 1 ==> !(s[k] == ' ' && s[k + 1] == '/')
  }

  /** A text whose first group can only end at its first " /", and whose second group can
      only end at the first "/" after that, is split there. */
  lemma SplitWordAt(s: string, e: nat, q: nat)
    requires 0 < e && e + 2 < q < |s|
    requires AllDot(s, 0, e) && forall k :: 0 <= k < e - 1 ==> !(s[k] == ' ' && s[k + 1] == '/')
    requires s[e] == ' ' && s[e + 1] == '/' && s[q] == '/'
    requires AllDot(s, e + 2, q) && forall k :: e + 2 <= k < q ==> s[k] != '/'
    ensures SplitWord(s) == (Trim(s[..e]), Some("/" + s[e + 2..q] + "/"))
  {
    forall i': nat, e': nat, q': nat | PhoneticMatch(s, i', e', q') ensures Precedes(0, e, q, i', e', q') {
    }
    SplitWordOfMatch(s, 0, e, q);
  }

  /** The stored form "word /ipa/", followed by anything: for a word on one line without
      " /" and a spelling on one line without "/", the card shows the trimmed word and the
      spelling between slashes. */
  lemma SplitWordOfEntry(x: string, y: string, rest: string)
    requires |x| >= 1 && AllDot(x, 0, |x|) && NoSpaceSlash(x)
    requires |y| >= 1 && AllDot(y, 0, |y|) && forall k :: 0 <= k < |y| ==> y[k] != '/'
    ensures SplitWord(x + " /" + y + "/" + rest) == (Trim(x), Some("/" + y + "/"))
  {
    var s := x + " /" + y + "/" + rest;
    var e := |x|;
    var q := |x| + 2 + |y|;
    assert s[..e] == x;
    assert s[e + 2..q] == y;
    SplitWordAt(s, e, q);
  }

  // ---------------------------------------------------------------------------------------
  // The part-of-speech split: \((.*?)\)\s+(.*)
  // ---------------------------------------------------------------------------------------

  /** The reachable part of a match of `\((.*?)\)\s+(.*)` starting at `start`: "(" at
      `start`, the first group `s[start + 1..close]`, ")" at `close` and at least one `\s`
      character after it. The rest of the match is forced: `\s+` takes every `\s` character
      that follows, and `.*` every `.` character after those. */
  predicate ParenMatch(s: string, start: nat, close: nat) {
    && start < close && close + 1 < |s| && s[start] == '(' && AllDot(s, start + 1, close)
    && s[close] == ')' && RegexSpace(s[close + 1])
  }

  /** The match `find` returns: the leftmost start, then the shortest lazy first group. */
  ghost predicate FirstParenMatch(s: string, i: nat, c: nat) {
    && ParenMatch(s, i, c)
    && forall i': nat, c': nat :: ParenMatch(s, i', c') ==> i < i' || (i == i' && c <= c')
  }

  datatype ExplanationMatch = ExplanationMatch(start: nat, close: nat)

  /** The lazy first group: from `c` on, the first ")" followed by a `\s` character, reached
      through `.` characters. */
  function CloseParen(s: string, c: nat): Option<nat>
    decreases |s| - c
  {
    if c >= |s| then None
    else if s[c] == ')' && c + 1 < |s| && RegexSpace(s[c + 1]) then Some(c)
    else if Dot(s[c]) then CloseParen(s, c + 1)
    else None
  }

  function ParenAt(s: string, i: nat): Option<nat> {
    if i < |s| && s[i] == '(' then CloseParen(s, i + 1) else None
  }

  function FindParenFrom(s: string, i: nat): Option<ExplanationMatch>
    decreases |s| - i
  {
    if i >= |s| then None
    else match ParenAt(s, i)
      case Some(c) => Some(ExplanationMatch(i, c))
      case None => FindParenFrom(s, i + 1)
  }

  function FindParen(s: string): Option<ExplanationMatch> {
    FindParenFrom(s, 0)
  }

  lemma {:induction false} CloseParenSpec(s: string, c0: nat)
    ensures CloseParen(s, c0).Some? ==>
      var c := CloseParen(s, c0).value;
      && c0 <= c && c + 1 < |s| && AllDot(s, c0, c) && s[c] == ')' && RegexSpace(s[c + 1])
    ensures forall c: nat :: c0 <= c && c + 1 < |s| && AllDot(s, c0, c) && s[c] == ')' && RegexSpace(s[c + 1]) ==>
      CloseParen(s, c0).Some? && CloseParen(s, c0).value <= c
    decreases |s| - c0
  {
    if c0 < |s| && !(s[c0] == ')' && c0 + 1 < |s| && RegexSpace(s[c0 + 1])) && Dot(s[c0]) {
      CloseParenSpec(s, c0 + 1);
    }
  }

  lemma {:induction false} FindParenFromSpec(s: string, i0: nat)
    ensures FindParenFrom(s, i0).Some? ==>
      var m := FindParenFrom(s, i0).value;
      && i0 <= m.start && ParenMatch(s, m.start, m.close)
      && forall i': nat, c': nat :: i0 <= i' && ParenMatch(s, i', c') ==>
           m.start < i' || (m.start == i' && m.close <= c')
    ensures FindParenFrom(s, i0).None? ==> forall i': nat, c': nat :: i0 <= i' ==> !ParenMatch(s, i', c')
    decreases |s| - i0
  {
    if i0 < |s| {
      CloseParenSpec(s, i0 + 1);
      if ParenAt(s, i0).None? {
        FindParenFromSpec(s, i0 + 1);
      }
    }
  }

  /** `find` returns exactly the first match, and nothing when there is none. */
  lemma FindParenSpec(s: string)
    ensures forall i: nat, c: nat :: FindParen(s) == Some(ExplanationMatch(i, c)) <==> FirstParenMatch(s, i, c)
    ensures FindParen(s).None? <==> forall i: nat, c: nat :: !ParenMatch(s, i, c)
  {
    FindParenFromSpec(s, 0);
  }

  /** The number of characters from `p` on that satisfy `\s`: the greedy `\s+`. */
  function SpaceRun(s: string, p: nat): (k: nat)
    ensures p + k <= |s| || k == 0
    ensures forall j :: p <= j < p + k ==> RegexSpace(s[j])
    ensures p + k < |s| ==> !RegexSpace(s[p + k])
    decreases |s| - p
  {
    if p < |s| && RegexSpace(s[p]) then 1 + SpaceRun(s, p + 1) else 0
  }

  /** The number of `.` characters from `p` on: the greedy `.*`. */
  function DotRun(s: string, p: nat): (k: nat)
    ensures p + k <= |s| || k == 0
    ensures forall j :: p <= j < p + k ==> Dot(s[j])
    ensures p + k < |s| ==> !Dot(s[p + k])
    decreases |s| - p
  {
    if p < |s| && Dot(s[p]) then 1 + DotRun(s, p + 1) else 0
  }

  /** The part of speech and the definition `FlashcardFront` shows: with a match, the first
      group (possibly empty) and the text that `.*` takes after the spaces; without one, no
      part of speech and the whole explanation. */
  function SplitExplanation(explanation: string): (r: (Option<string>, string))
    ensures FindParen(explanation).None? ==> r == (None, explanation)
    ensures r.0.Some? ==> forall k :: 0 <= k < |r.0.value| ==> Dot(r.0.value[k])
    ensures r.0.Some? ==> forall k :: 0 <= k < |r.1| ==> Dot(r.1[k])
  {
    match FindParen(explanation)
    case Some(m) =>
      FindParenSpec(explanation);
      var d := m.close + 1 + SpaceRun(explanation, m.close + 1);
      var part := explanation[m.start + 1..m.close];
      var definition := explanation[d..d + DotRun(explanation, d)];
      assert forall k :: 0 <= k < |part| ==> part[k] == explanation[m.start + 1 + k];
      assert forall k :: 0 <= k < |definition| ==> definition[k] == explanation[d + k];
      (Some(part), definition)
    case None => (None, explanation)
  }

  /** A text that opens with "(", whose first ")" is followed by `\s` characters and then by
      `.` characters up to its end, is split there. */
  lemma SplitExplanationAt(s: string, c: nat, start: nat)
    requires 0 < c < start <= |s| && c + 1 < start
    requires s[0] == '(' && AllDot(s, 1, c) && (forall k :: 1 <= k < c ==> s[k] != ')') && s[c] == ')'
    requires forall k :: c + 1 <= k < start ==> RegexSpace(s[k])
    requires start < |s| ==> !RegexSpace(s[start])
    requires AllDot(s, start, |s|)
    ensures SplitExplanation(s) == (Some(s[1..c]), s[start..])
  {
    assert ParenMatch(s, 0, c);
    FindParenSpec(s);
    assert FindParen(s) == Some(ExplanationMatch(0, c));
    SpaceRunOf(s, c + 1, s[c + 1..start]);
    DotRunOf(s, start, s[start..]);
    assert c + 1 + SpaceRun(s, c + 1) == start;
    assert s[start..start + DotRun(s, start)] == s[start..];
  }

  /** The stored form "(part) definition": for a part of speech on one line without ")",
      one or more `\s` characters and a definition on one line that does not start with a
      `\s` character, the card shows exactly the part (possibly empty) and the definition. */
  lemma SplitExplanationOfEntry(p: string, w: string, d: string)
    requires AllDot(p, 0, |p|) && forall k :: 0 <= k < |p| ==> p[k] != ')'
    requires |w| >= 1 && forall k :: 0 <= k < |w| ==> RegexSpace(w[k])
    requires AllDot(d, 0, |d|) && (d == [] || !RegexSpace(d[0]))
    ensures SplitExplanation("(" + p + ")" + w + d) == (Some(p), d)
  {
    var s := "(" + p + ")" + w + d;
    var c := |p| + 1;
    var start := c + 1 + |w|;
    assert s[1..c] == p;
    assert s[c + 1..start] == w;
    assert s[start..] == d;
    SplitExplanationAt(s, c, start);
  }

  /** A run of `\s` characters ended by another character or the end of the text is what
      `\s+` takes. */
  lemma {:induction false} SpaceRunOf(s: string, p: nat, w: string)
    requires p + |w| <= |s| && s[p..p + |w|] == w && forall k :: 0 <= k < |w| ==> RegexSpace(w[k])
    requires p + |w| < |s| ==> !RegexSpace(s[p + |w|])
    ensures SpaceRun(s, p) == |w|
    decreases |w|
  {
    if w != [] {
      assert s[p] == w[0];
      assert s[p + 1..p + 1 + |w[1..]|] == w[1..];
      SpaceRunOf(s, p + 1, w[1..]);
    }
  }

  /** The rest of the text, when it is all `.` characters, is what `.*` takes. */
  lemma {:induction false} DotRunOf(s: string, p: nat, d: string)
    requires p <= |s| && s[p..] == d && AllDot(d, 0, |d|)
    ensures DotRun(s, p) == |d|
    decreases |d|
  {
    if d != [] {
      assert s[p] == d[0];
      assert s[p + 1..] == d[1..];
      DotRunOf(s, p + 1, d[1..]);
    }
  }

  /** A definition with no "(" heading is shown whole, with no part of speech. */
  lemma SplitExplanationWithoutParen(explanation: string)
    requires forall k :: 0 <= k < |explanation| ==> explanation[k] != '('
    ensures SplitExplanation(explanation) == (None, explanation)
  {
    FindParenSpec(explanation);
  }

  // ---------------------------------------------------------------------------------------
  // The card's flags
  // ---------------------------------------------------------------------------------------

  /** The two `remember`ed flags of a card: which side is up (kept by `Flashcard`), and
      whether the image picker is open (kept by `FlashcardFront`). The front leaves the
      composition while the back is shown, which resets `showImagePicker` to false; this
      class keeps it across a flip instead. The two differ only while the picker is open, and
      the picker is modal (a file dialog or an activity), so no flip can happen then. */
  class FlashcardState {
    var isFlipped: bool
    var showImagePicker: bool

    constructor()
      ensures !isFlipped && !showImagePicker
    {
      isFlipped := false;
      showImagePicker := false;
    }

    /** The card's `onClick`: turns the card over. */
    method OnCardClick()
      modifies this
      ensures isFlipped == !old(isFlipped) && showImagePicker == old(showImagePicker)
    {
      isFlipped := !isFlipped;
    }

    /** The add-image button: opens the picker. */
    method OnAddImageClick()
      modifies this
      ensures showImagePicker && isFlipped == old(isFlipped)
    {
      showImagePicker := true;
    }

    /** The picker's `onImageSelected`: closes the picker, whether or not an image came back. */
    method OnImageSelected()
      modifies this
      ensures !showImagePicker && isFlipped == old(isFlipped)
    {
      showImagePicker := false;
    }
  }

  /** The side that is up after `clicks` clicks on a card that started with `flipped`. */
  function FlippedAfter(flipped: bool, clicks: nat): bool {
    if clicks == 0 then flipped else !FlippedAfter(flipped, clicks - 1)
  }

  /** After an even number of clicks the card shows the side it started on. */
  lemma {:induction false} FlippedAfterParity(flipped: bool, clicks: nat)
    ensures FlippedAfter(flipped, clicks) == (if clicks % 2 == 0 then flipped else !flipped)
  {
    if clicks > 0 {
      FlippedAfterParity(flipped, clicks - 1);
    }
  }
}

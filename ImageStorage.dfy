/** `copyImageToInternalStorage` on the desktop and on Android: the file-name sanitiser, the
    name of the copied image, and the copy itself over a file store whose directories and
    files the copy changes. Opening the picked image, creating the directory and writing
    the copy are the file system's business; whether each of them works is an input. */
module ImageStorage {
  import opened Common
  import opened KotlinText

  // ---------------------------------------------------------------------------------------
  // The sanitiser: word.replace(Regex("[^a-zA-Z0-9._-]"), "_")
  // ---------------------------------------------------------------------------------------

  /** The characters `[a-zA-Z0-9._-]` that may stay in a file name. */
  predicate SafeChar(c: char) {
    ('a' <= c <= 'z') || ('A' <= c <= 'Z') || ('0' <= c <= '9') || c == '.' || c == '_' || c == '-'
  }

  predicate AllSafe(s: string) {
    forall k :: 0 <= k < |s| ==> SafeChar(s[k])
  }

  /** The sanitised word: every character outside the set becomes "_", one for one (the
      expression matches whole code points, and strings here are sequences of code points). */
  function Sanitize(word: string): (r: string)
    ensures |r| == |word| && AllSafe(r)
    ensures forall k :: 0 <= k < |word| ==> r[k] == (if SafeChar(word[k]) then word[k] else '_')
    decreases |word|
  {
    if word == [] then []
    else [if SafeChar(word[0]) then word[0] else '_'] + Sanitize(word[1..])
  }

  /** A word made of allowed characters is its own sanitised form. */
  lemma SanitizeOfSafe(word: string)
    requires AllSafe(word)
    ensures Sanitize(word) == word
  {
  }

  /** Sanitising twice is sanitising once. */
  lemma SanitizeIdempotent(word: string)
    ensures Sanitize(Sanitize(word)) == Sanitize(word)
  {
    SanitizeOfSafe(Sanitize(word));
  }

  /** Sanitising is done character by character, so it distributes over concatenation. */
  lemma {:induction false} SanitizeAppend(a: string, b: string)
    ensures Sanitize(a + b) == Sanitize(a) + Sanitize(b)
    decreases |a|
  {
    if a != [] {
      assert (a + b)[1..] == a[1..] + b;
      SanitizeAppend(a[1..], b);
    }
  }

  // ---------------------------------------------------------------------------------------
  // The file name: "${safeWord}_image_$timestamp.jpg"
  // ---------------------------------------------------------------------------------------

  const ImageInfix := "_image_"
  const ImageExtension := ".jpg"

  /** The desktop's image directory, relative to the home directory. */
  const DesktopImageDirectory := ".lingua_lift/word_images"

  /** Android's image directory, inside the app's files directory. */
  const AndroidImageDirectory := "word_images"

  /** The name of the copy: the sanitised word, "_image_", the time in milliseconds and
      ".jpg"; the word and the time are recovered from it. */
  function ImageFileName(safeWord: string, timestamp: int): (r: string)
    ensures |r| == |safeWord| + |ImageInfix| + |IntToString(timestamp)| + |ImageExtension|
    ensures r[..|safeWord|] == safeWord
    ensures r[|safeWord|..|safeWord| + |ImageInfix|] == ImageInfix
    ensures r[|safeWord| + |ImageInfix|..|r| - |ImageExtension|] == IntToString(timestamp)
    ensures r[|r| - |ImageExtension|..] == ImageExtension
  {
    safeWord + ImageInfix + IntToString(timestamp) + ImageExtension
  }

  lemma AllSafeAppend(a: string, b: string)
    requires AllSafe(a) && AllSafe(b)
    ensures AllSafe(a + b)
  {
    forall k | 0 <= k < |a + b| ensures SafeChar((a + b)[k]) {
      if k >= |a| {
        assert (a + b)[k] == b[k - |a|];
      }
    }
  }

  /** A name built from a sanitised word holds only allowed characters: the time's digits
      and its sign are allowed too. */
  lemma ImageFileNameSafe(word: string, timestamp: int)
    ensures AllSafe(ImageFileName(Sanitize(word), timestamp))
  {
    var safe := Sanitize(word);
    var digits := IntToString(timestamp);
    assert AllSafe(ImageInfix) && AllSafe(ImageExtension);
    AllSafeAppend(safe, ImageInfix);
    AllSafeAppend(safe + ImageInfix, digits);
    AllSafeAppend(safe + ImageInfix + digits, ImageExtension);
  }

  /** Copies of one word made at different times get different names. */
  lemma ImageFileNameDistinctTimes(safeWord: string, t1: int, t2: int)
    requires ImageFileName(safeWord, t1) == ImageFileName(safeWord, t2)
    ensures t1 == t2
  {
    var r := ImageFileName(safeWord, t1);
    assert IntToString(t1) == r[|safeWord| + |ImageInfix|..|r| - |ImageExtension|] == IntToString(t2);
    IntToStringInjective(t1, t2);
  }

  /** Copies made at the same time of words that sanitise differently get different names. */
  lemma ImageFileNameDistinctWords(w1: string, w2: string, timestamp: int)
    requires ImageFileName(w1, timestamp) == ImageFileName(w2, timestamp)
    ensures w1 == w2
  {
    var r := ImageFileName(w1, timestamp);
    assert |w1| == |w2|;
    assert w1 == r[..|w1|] == w2;
  }

  // ---------------------------------------------------------------------------------------
  // The copy
  // ---------------------------------------------------------------------------------------

  /** What Android's `contentResolver.openInputStream` does: a stream over the picked image's
      bytes, null, or an exception. */
  datatype ContentStream = Stream(bytes: seq<bv8>) | NoStream | StreamThrew

  /** `FileStore`: the directories that exist and the contents of the files. */
  class FileStore {
    var directories: set<string>
    var files: map<string, seq<bv8>>

    constructor(directories0: set<string>, files0: map<string, seq<bv8>>)
      ensures directories == directories0 && files == files0
    {
      directories := directories0;
      files := files0;
    }

    /** The desktop `copyImageToInternalStorage`. `source` is the picked file's contents, or
        None when opening it throws; `mkdirsSucceeds` says whether `mkdirs` creates the
        missing directory and `writeSucceeds` whether opening and filling the new file
        works. The result is the new file's path, or None when anything throws; a missing
        picked file stops the copy before the directory is touched, and a directory that
        could not be created makes the write throw. */
    method CopyImageDesktop(home: string, word: string, timestamp: int, source: Option<seq<bv8>>,
                            mkdirsSucceeds: bool, writeSucceeds: bool)
      returns (path: Option<string>)
      modifies this
      ensures var directory := ChildPath(home, DesktopImageDirectory);
        && directories == (if source.Some? && mkdirsSucceeds then old(directories) + {directory} else old(directories))
        && (path.Some? <==> source.Some? && directory in directories && writeSucceeds)
        && (path.Some? ==> path.value == ChildPath(directory, ImageFileName(Sanitize(word), timestamp))
                           && files == old(files)[path.value := source.value])
        && (path.None? ==> files == old(files))
    {
      if source.None? {
        return None;
      }
      var input := source.value;
      var directory := ChildPath(home, DesktopImageDirectory);
      if directory !in directories {
        if mkdirsSucceeds {
          directories := directories + {directory};
        }
      }
      var safeWord := Sanitize(word);
      var file := ChildPath(directory, ImageFileName(safeWord, timestamp));
      if directory !in directories || !writeSucceeds {
        return None;
      }
      files := files[file := input];
      path := Some(file);
    }

    /** The Android `copyImageToInternalStorage`, in the app's files directory `filesDir`.
        The directory is prepared first and a directory that is missing and cannot be
        created gives None; then no stream, an exception while opening it, or a failing
        write gives None; otherwise the new file's path. */
    method CopyImageAndroid(filesDir: string, word: string, timestamp: int, source: ContentStream,
                            mkdirsSucceeds: bool, writeSucceeds: bool)
      returns (path: Option<string>)
      modifies this
      ensures var directory := ChildPath(filesDir, AndroidImageDirectory);
        && directories == (if mkdirsSucceeds then old(directories) + {directory} else old(directories))
        && (path.Some? <==> directory in directories && source.Stream? && writeSucceeds)
        && (path.Some? ==> path.value == ChildPath(directory, ImageFileName(Sanitize(word), timestamp))
                           && files == old(files)[path.value := source.bytes])
        && (path.None? ==> files == old(files))
    {
      var safeWord := Sanitize(word);
      var directory := ChildPath(filesDir, AndroidImageDirectory);
      if directory !in directories {
        if !mkdirsSucceeds {
          return None;
        }
        directories := directories + {directory};
      }
      var file := ChildPath(directory, ImageFileName(safeWord, timestamp));
      match source {
        case NoStream =>
          return None;
        case StreamThrew =>
          return None;
        case Stream(bytes) =>
          if !writeSucceeds {
            return None;
          }
          files := files[file := bytes];
          return Some(file);
      }
    }
  }

  /** The copy lands, on both platforms, in the platform's image directory under a name made
      of allowed characters only, which ends in ".jpg". */
  lemma CopiedImagePath(base: string, directory: string, word: string, timestamp: int)
    ensures var d := ChildPath(base, directory);
      var p := ChildPath(d, ImageFileName(Sanitize(word), timestamp));
      && p[..|d|] == d && AllSafe(p[|d| + 1..]) && EndsWith(p, ImageExtension)
  {
    var d := ChildPath(base, directory);
    var name := ImageFileName(Sanitize(word), timestamp);
    ImageFileNameSafe(word, timestamp);
    var p := ChildPath(d, name);
    assert EndsWith(name, ImageExtension);
    EndsWithOfTail(p, |d| + 1, ImageExtension);
  }

  /** A text ends the way any of its tails ends. */
  lemma EndsWithOfTail(p: string, k: nat, q: string)
    requires k <= |p| && EndsWith(p[k..], q)
    ensures EndsWith(p, q)
  {
    assert p[|p| - |q|..] == p[k..][|p[k..]| - |q|..];
  }
}

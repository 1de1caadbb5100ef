/**
 * Turning replication sequence numbers into files under a working directory. The formatted
 * name is split at every '/'; each part but the last names a directory that must exist, and is
 * created when it does not; the last part names the file, which is not created.
 *
 * A path is the list of its components. The file system is the set of directories that exist,
 * and whether creating a directory succeeds is decided by a function the caller supplies.
 */
module ReplicationFiles {
  import opened SequenceFormat

  type Path = seq<string>

  /** The file a name resolves to, or the directory that could not be created on the way. */
  datatype FileResult = File(path: Path) | UnableToCreateDirectory(directory: Path)

  /** The parts of `s` between '/' characters, empty ones included, left to right. */
  function Segments(s: string): (parts: seq<string>)
    ensures |parts| >= 1
  {
    if |s| == 0 then [""]
    else
      var front := Segments(s[..|s| - 1]);
      var c := s[|s| - 1];
      if c == '/' then front + [""]
      else front[..|front| - 1] + [front[|front| - 1] + [c]]
  }

  function NonEmpty(parts: seq<string>): seq<string>
  {
    if |parts| == 0 then []
    else if parts[|parts| - 1] == "" then NonEmpty(parts[..|parts| - 1])
    else NonEmpty(parts[..|parts| - 1]) + [parts[|parts| - 1]]
  }

  /** The tokens a '/'-delimited tokenizer yields: the non-empty parts between separators. */
  function Tokens(s: string): seq<string>
  {
    NonEmpty(Segments(s))
  }

  /**
   * The directory walk from `path` along `tokens`: each token extends the path; every path but
   * the last must be in `dirs` or be created by `mkdir`, which adds it to the directories.
   * Yields the final path, or the first directory that could not be created, together with the
   * directories that exist afterwards.
   */
  function Walk(path: Path, tokens: seq<string>, dirs: set<Path>, mkdir: Path -> bool): (FileResult, set<Path>)
    decreases |tokens|
  {
    if |tokens| == 0 then (File(path), dirs)
    else
      var next := path + [tokens[0]];
      if |tokens| == 1 then (File(next), dirs)
      else if next in dirs then Walk(next, tokens[1..], dirs, mkdir)
      else if mkdir(next) then Walk(next, tokens[1..], dirs + {next}, mkdir)
      else (UnableToCreateDirectory(next), dirs)
  }

  /** The directories on the way to `path + tokens`: every proper, non-empty prefix of the tokens. */
  ghost function Intermediates(path: Path, tokens: seq<string>): set<Path>
  {
    set j | 1 <= j < |tokens| :: path + tokens[..j]
  }

  /** A directory on the way exists already or can be created. */
  ghost predicate Reachable(d: Path, dirs: set<Path>, mkdir: Path -> bool)
  {
    d in dirs || mkdir(d)
  }

  class ReplicationFileSequenceFormatter {
    const workingDirectory: Path
    const minimumLength: nat
    const groupingLength: nat

    /** A formatter with the default minimum length 9 and grouping length 3. */
    constructor(workingDirectory: Path)
      ensures this.workingDirectory == workingDirectory
      ensures minimumLength == 9 && groupingLength == 3
    {
      this.workingDirectory := workingDirectory;
      minimumLength := 9;
      groupingLength := 3;
    }

    constructor WithLengths(workingDirectory: Path, minimumLength: nat, groupingLength: nat)
      ensures this.workingDirectory == workingDirectory
      ensures this.minimumLength == minimumLength && this.groupingLength == groupingLength
    {
      this.workingDirectory := workingDirectory;
      this.minimumLength := minimumLength;
      this.groupingLength := groupingLength;
    }

    /**
     * The file for `sequenceNumber`, creating the directories on its way: the walk from the
     * working directory along the tokens of the formatted name. Returns the result and the
     * directories that exist afterwards.
     */
    method GetFormattedName(sequenceNumber: nat, fileNameSuffix: string, dirs: set<Path>, mkdir: Path -> bool)
      returns (r: FileResult, dirsAfter: set<Path>)
      ensures (r, dirsAfter) ==
        Walk(workingDirectory, Tokens(FormattedName(sequenceNumber, minimumLength, groupingLength, fileNameSuffix)), dirs, mkdir)
    {
      var fileName := FormattedName(sequenceNumber, minimumLength, groupingLength, fileNameSuffix);
      var tokens := Tokens(fileName);
      var formattedPath := workingDirectory;
      dirsAfter := dirs;
      var i := 0;
      while i < |tokens|
        invariant 0 <= i <= |tokens|
        invariant Walk(workingDirectory, tokens, dirs, mkdir) == Walk(formattedPath, tokens[i..], dirsAfter, mkdir)
      {
        assert tokens[i..][1..] == tokens[i + 1..];
        formattedPath := formattedPath + [tokens[i]];
        i := i + 1;
        if i < |tokens| {
          if formattedPath !in dirsAfter {
            if !mkdir(formattedPath) {
              return UnableToCreateDirectory(formattedPath), dirsAfter;
            }
            dirsAfter := dirsAfter + {formattedPath};
          }
        }
      }
      return File(formattedPath), dirsAfter;
    }
  }

  // ---------------------------------------------------------------------------------------
  // Tokens of a formatted name

  lemma {:induction false} SegmentsPlain(s: string)
    requires '/' !in s
    ensures Segments(s) == [s]
    decreases |s|
  {
    if |s| > 0 {
      SegmentsPlain(s[..|s| - 1]);
      assert s[..|s| - 1] + [s[|s| - 1]] == s;
    }
  }

  /** A character other than '/' extends the last part. */
  lemma SegmentsAppendChar(s: string, c: char)
    requires c != '/'
    ensures var p := Segments(s);
      Segments(s + [c]) == p[..|p| - 1] + [p[|p| - 1] + [c]]
  {
    assert (s + [c])[..|s|] == s;
  }

  /** Extending the last of a list of parts twice extends it by both texts. */
  lemma ExtendLast(p: seq<string>, front: seq<string>, t: string, c: char)
    requires |p| >= 1 && front == p[..|p| - 1] + [p[|p| - 1] + t]
    ensures front[..|front| - 1] + [front[|front| - 1] + [c]] == p[..|p| - 1] + [p[|p| - 1] + (t + [c])]
  {
    assert front[..|front| - 1] == p[..|p| - 1];
    assert (p[|p| - 1] + t) + [c] == p[|p| - 1] + (t + [c]);
  }

  /** Text without a separator extends the last part. */
  lemma {:induction false} SegmentsAppendPlain(s: string, t: string)
    requires '/' !in t
    ensures var p := Segments(s);
      Segments(s + t) == p[..|p| - 1] + [p[|p| - 1] + t]
    decreases |t|
  {
    var p := Segments(s);
    if |t| == 0 {
      assert s + t == s;
      assert p[|p| - 1] + t == p[|p| - 1];
      assert p[..|p| - 1] + [p[|p| - 1]] == p;
    } else {
      var t', c := t[..|t| - 1], t[|t| - 1];
      assert t == t' + [c];
      assert s + t == (s + t') + [c];
      SegmentsAppendPlain(s, t');
      SegmentsAppendChar(s + t', c);
      ExtendLast(p, Segments(s + t'), t', c);
    }
  }

  /** A separator starts a new part. */
  lemma SegmentsAppendSlash(s: string, t: string)
    requires '/' !in t
    ensures Segments(s + "/" + t) == Segments(s) + [t]
  {
    assert (s + "/")[..|s|] == s;
    var p := Segments(s + "/");
    assert p == Segments(s) + [""];
    assert p[..|p| - 1] == Segments(s);
    assert p[|p| - 1] + t == t;
    SegmentsAppendPlain(s + "/", t);
  }

  /** Slash-free chunks joined by '/' split back into those chunks. */
  lemma {:induction false} SegmentsOfJoin(chunks: seq<string>)
    requires |chunks| >= 1
    requires forall k :: 0 <= k < |chunks| ==> '/' !in chunks[k]
    ensures Segments(Join(chunks)) == chunks
    decreases |chunks|
  {
    if |chunks| == 1 {
      SegmentsPlain(chunks[0]);
    } else {
      var front := chunks[..|chunks| - 1];
      SegmentsOfJoin(front);
      SegmentsAppendSlash(Join(front), chunks[|chunks| - 1]);
      assert front + [chunks[|chunks| - 1]] == chunks;
    }
  }

  lemma {:induction false} NonEmptyKeeps(parts: seq<string>)
    requires forall k :: 0 <= k < |parts| ==> parts[k] != ""
    ensures NonEmpty(parts) == parts
    decreases |parts|
  {
    if |parts| > 0 {
      NonEmptyKeeps(parts[..|parts| - 1]);
      assert parts[..|parts| - 1] + [parts[|parts| - 1]] == parts;
    }
  }

  /** Slash-free, non-empty chunks joined by '/' and followed by a slash-free suffix. */
  lemma TokensOfJoin(cs: seq<string>, suffix: string)
    requires |cs| >= 1 && '/' !in suffix
    requires forall k :: 0 <= k < |cs| ==> |cs[k]| >= 1 && '/' !in cs[k]
    ensures Tokens(Join(cs) + suffix) == cs[..|cs| - 1] + [cs[|cs| - 1] + suffix]
  {
    SegmentsOfJoin(cs);
    SegmentsAppendPlain(Join(cs), suffix);
    var parts := cs[..|cs| - 1] + [cs[|cs| - 1] + suffix];
    forall k | 0 <= k < |parts|
      ensures parts[k] != ""
    {
      if k < |cs| - 1 {
        assert parts[k] == cs[k];
      }
    }
    NonEmptyKeeps(parts);
  }

  /**
   * With a positive grouping length and a suffix without '/', the tokens of a formatted name are
   * the digit chunks, the suffix attached to the last one.
   */
  lemma FormattedNameTokens(n: nat, minimumLength: nat, groupingLength: nat, suffix: string)
    requires groupingLength > 0 && '/' !in suffix
    ensures var cs := Chunks(PadLeft(Decimal(n), minimumLength), groupingLength);
      |cs| >= 1 &&
      Tokens(FormattedName(n, minimumLength, groupingLength, suffix)) == cs[..|cs| - 1] + [cs[|cs| - 1] + suffix]
  {
    var digits := PadLeft(Decimal(n), minimumLength);
    PaddedValue(n, minimumLength);
    assert |digits| >= 1;
    ChunksPlain(digits, groupingLength);
    GroupIsJoin(digits, groupingLength);
    TokensOfJoin(Chunks(digits, groupingLength), suffix);
  }

  /** Without grouping, a name whose suffix has no '/' is a single token. */
  lemma UngroupedNameTokens(n: nat, minimumLength: nat, suffix: string)
    requires '/' !in suffix
    ensures Tokens(FormattedName(n, minimumLength, 0, suffix)) == [PadLeft(Decimal(n), minimumLength) + suffix]
  {
    var name := FormattedName(n, minimumLength, 0, suffix);
    var digits := PadLeft(Decimal(n), minimumLength);
    PaddedValue(n, minimumLength);
    PaddedWidth(n, minimumLength);
    assert '/' !in name by {
      forall j | 0 <= j < |name|
        ensures name[j] != '/'
      {
        if j < |digits| {
          assert IsDigit(digits[j]);
        } else {
          assert name[j] == suffix[j - |digits|];
        }
      }
    }
    SegmentsPlain(name);
    NonEmptyKeeps([name]);
  }

  // ---------------------------------------------------------------------------------------
  // The directory walk

  /** A prefix of the tokens is the first step's directory followed by a prefix of the rest. */
  lemma PrefixStep<T>(path: seq<T>, tokens: seq<T>, j: nat)
    requires j < |tokens|
    ensures path + tokens[..j + 1] == (path + [tokens[0]]) + tokens[1..][..j]
    ensures |path + tokens[..j + 1]| == |path| + 1 + j
  {
    assert tokens[..j + 1] == [tokens[0]] + tokens[1..][..j];
  }

  /**
   * The walk succeeds exactly when every directory on the way exists or can be created; then
   * the file is the path extended by all tokens, exactly the directories on the way have been
   * added, and the file itself is never created.
   */
  lemma {:induction false} WalkSucceeds(path: Path, tokens: seq<string>, dirs: set<Path>, mkdir: Path -> bool)
    ensures Walk(path, tokens, dirs, mkdir).0.File? <==>
      forall j :: 1 <= j < |tokens| ==> Reachable(path + tokens[..j], dirs, mkdir)
    ensures Walk(path, tokens, dirs, mkdir).0.File? ==>
      Walk(path, tokens, dirs, mkdir).0.path == path + tokens &&
      Walk(path, tokens, dirs, mkdir).1 == dirs + Intermediates(path, tokens)
    decreases |tokens|
  {
    if |tokens| == 1 {
      assert path + tokens[..1] == path + tokens;
      assert Intermediates(path, tokens) == {};
    } else if |tokens| > 1 {
      var next := path + [tokens[0]];
      var rest := tokens[1..];
      var dirs' := if next in dirs then dirs else dirs + {next};
      WalkSucceeds(next, rest, dirs', mkdir);
      assert path + tokens[..1] == next;
      assert next + rest == path + tokens;
      if !Reachable(next, dirs, mkdir) {
        assert !Reachable(path + tokens[..1], dirs, mkdir);
      } else if Walk(path, tokens, dirs, mkdir).0.File? {
        forall j | 1 <= j < |tokens|
          ensures Reachable(path + tokens[..j], dirs, mkdir)
        {
          if j > 1 {
            PrefixStep(path, tokens, j - 1);
            assert Reachable(next + rest[..j - 1], dirs', mkdir);
          }
        }
        IntermediatesStep(path, tokens);
      } else {
        var j :| 1 <= j < |rest| && !Reachable(next + rest[..j], dirs', mkdir);
        PrefixStep(path, tokens, j);
        assert !Reachable(path + tokens[..j + 1], dirs, mkdir);
      }
    }
  }

  /** The directories on the way are the first step's directory and those on the way from it. */
  lemma IntermediatesStep(path: Path, tokens: seq<string>)
    requires |tokens| > 1
    ensures Intermediates(path, tokens) == {path + [tokens[0]]} + Intermediates(path + [tokens[0]], tokens[1..])
  {
    var next := path + [tokens[0]];
    var rest := tokens[1..];
    assert path + tokens[..1] == next;
    assert next in Intermediates(path, tokens);
    forall d | d in Intermediates(path, tokens)
      ensures d in {next} + Intermediates(next, rest)
    {
      var j :| 1 <= j < |tokens| && d == path + tokens[..j];
      if j > 1 {
        PrefixStep(path, tokens, j - 1);
      }
    }
    forall d | d in Intermediates(next, rest)
      ensures d in Intermediates(path, tokens)
    {
      var j :| 1 <= j < |rest| && d == next + rest[..j];
      PrefixStep(path, tokens, j);
    }
  }

  /**
   * A failed walk names the first directory on the way that neither exists nor can be created;
   * the directories before it have all been added.
   */
  lemma {:induction false} WalkFails(path: Path, tokens: seq<string>, dirs: set<Path>, mkdir: Path -> bool)
    ensures Walk(path, tokens, dirs, mkdir).0.UnableToCreateDirectory? ==>
      exists j :: 1 <= j < |tokens| &&
        Walk(path, tokens, dirs, mkdir).0.directory == path + tokens[..j] &&
        !Reachable(path + tokens[..j], dirs, mkdir) &&
        (forall i :: 1 <= i < j ==> Reachable(path + tokens[..i], dirs, mkdir)) &&
        (forall i :: 1 <= i < j ==> path + tokens[..i] in Walk(path, tokens, dirs, mkdir).1)
    decreases |tokens|
  {
    if |tokens| > 1 && Walk(path, tokens, dirs, mkdir).0.UnableToCreateDirectory? {
      var next := path + [tokens[0]];
      var rest := tokens[1..];
      assert path + tokens[..1] == next;
      if Reachable(next, dirs, mkdir) {
        var dirs' := if next in dirs then dirs else dirs + {next};
        WalkFails(next, rest, dirs', mkdir);
        var j :| 1 <= j < |rest| &&
          Walk(next, rest, dirs', mkdir).0.directory == next + rest[..j] &&
          !Reachable(next + rest[..j], dirs', mkdir) &&
          (forall i :: 1 <= i < j ==> Reachable(next + rest[..i], dirs', mkdir)) &&
          (forall i :: 1 <= i < j ==> next + rest[..i] in Walk(next, rest, dirs', mkdir).1);
        WalkGrows(next, rest, dirs', mkdir);
        PrefixStep(path, tokens, j);
        assert !Reachable(path + tokens[..j + 1], dirs, mkdir);
        forall i | 1 <= i < j + 1
          ensures Reachable(path + tokens[..i], dirs, mkdir)
          ensures path + tokens[..i] in Walk(path, tokens, dirs, mkdir).1
        {
          if i > 1 {
            PrefixStep(path, tokens, i - 1);
          }
        }
      }
    }
  }

  /** The walk only adds directories. */
  lemma {:induction false} WalkGrows(path: Path, tokens: seq<string>, dirs: set<Path>, mkdir: Path -> bool)
    ensures dirs <= Walk(path, tokens, dirs, mkdir).1
    decreases |tokens|
  {
    if |tokens| > 1 {
      var next := path + [tokens[0]];
      WalkGrows(next, tokens[1..], dirs, mkdir);
      WalkGrows(next, tokens[1..], dirs + {next}, mkdir);
    }
  }

  /**
   * Repeating a successful walk over the directories it left behind creates nothing and yields
   * the same file, whatever directory creation would now do.
   */
  lemma WalkRepeat(path: Path, tokens: seq<string>, dirs: set<Path>, mkdir: Path -> bool, mkdirAgain: Path -> bool)
    requires Walk(path, tokens, dirs, mkdir).0.File?
    ensures Walk(path, tokens, Walk(path, tokens, dirs, mkdir).1, mkdirAgain) == Walk(path, tokens, dirs, mkdir)
  {
    var after := Walk(path, tokens, dirs, mkdir).1;
    WalkSucceeds(path, tokens, dirs, mkdir);
    WalkExisting(path, tokens, after, mkdirAgain);
  }

  /** A walk whose directories all exist succeeds, adds nothing and never creates a directory. */
  lemma {:induction false} WalkExisting(path: Path, tokens: seq<string>, dirs: set<Path>, mkdir: Path -> bool)
    requires Intermediates(path, tokens) <= dirs
    ensures Walk(path, tokens, dirs, mkdir) == (File(path + tokens), dirs)
    decreases |tokens|
  {
    if |tokens| == 0 {
      assert path + tokens == path;
    } else if |tokens| == 1 {
      assert path + [tokens[0]] == path + tokens;
    } else {
      var next := path + [tokens[0]];
      var rest := tokens[1..];
      assert next == path + tokens[..1];
      assert next in Intermediates(path, tokens);
      assert next in dirs;
      forall d | d in Intermediates(next, rest)
        ensures d in dirs
      {
        var j :| 1 <= j < |rest| && d == next + rest[..j];
        PrefixStep(path, tokens, j);
        assert d in Intermediates(path, tokens);
      }
      WalkExisting(next, rest, dirs, mkdir);
      assert Walk(path, tokens, dirs, mkdir) == Walk(next, rest, dirs, mkdir);
      assert [tokens[0]] + rest == tokens;
      assert next + rest == path + tokens;
    }
  }

  /**
   * Without grouping (and a suffix without '/') no directory is created: the file is the
   * working directory followed by the formatted name.
   */
  lemma UngroupedWalk(workingDirectory: Path, n: nat, minimumLength: nat, suffix: string, dirs: set<Path>, mkdir: Path -> bool)
    requires '/' !in suffix
    ensures Walk(workingDirectory, Tokens(FormattedName(n, minimumLength, 0, suffix)), dirs, mkdir)
      == (File(workingDirectory + [FormattedName(n, minimumLength, 0, suffix)]), dirs)
  {
    UngroupedNameTokens(n, minimumLength, suffix);
    assert FormattedName(n, minimumLength, 0, suffix) == PadLeft(Decimal(n), minimumLength) + suffix;
  }

  /**
   * With the default lengths, a sequence number below 10^9 lands in two levels of directories
   * named by its first three and next three padded digits, in a file named by the last three
   * and the suffix.
   */
  lemma DefaultLayout(workingDirectory: Path, n: nat, suffix: string)
    requires n < Pow10(9) && '/' !in suffix
    ensures var digits := PadLeft(Decimal(n), 9);
      |digits| == 9 &&
      Tokens(FormattedName(n, 9, 3, suffix)) == [digits[..3], digits[3..6], digits[6..] + suffix]
  {
    var digits := PadLeft(Decimal(n), 9);
    PaddedWidth(n, 9);
    FormattedNameTokens(n, 9, 3, suffix);
    var cs := Chunks(digits, 3);
    var six := digits[..6];
    assert six[..3] == digits[..3];
    assert six[3..] == digits[3..6];
    assert Chunks(six[..3], 3) == [digits[..3]];
    assert Chunks(six, 3) == [digits[..3], digits[3..6]];
    assert cs == Chunks(six, 3) + [digits[6..]];
  }
}

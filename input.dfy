/**
 * The target list reader of internal/input/reader.go. The file has already been opened and
 * split into lines by `bufio.Scanner`; what is modelled is the trim / skip / append loop and
 * the two error returns.
 */
module Input {
  import opened Wrappers
  import opened GoStrings

  /** What opening and scanning the targets file produced. */
  datatype LineSource =
    | OpenFailed(openError: string)
    | Scanned(lines: seq<string>, scanError: Option<string>)

  /** The targets kept from `lines`: each line trimmed, blank ones dropped, order kept. */
  function NonBlankTrimmed(lines: seq<string>): (targets: seq<string>)
    ensures |targets| <= |lines|
  {
    if lines == [] then []
    else
      var t := TrimSpace(lines[0]);
      (if t == "" then [] else [t]) + NonBlankTrimmed(lines[1..])
  }

  /** The loop appending to `targets` over the lines read so far, then the scanner error check. */
  method ReadTargets(source: LineSource) returns (targets: seq<string>, err: Option<string>)
    ensures source.OpenFailed? ==> targets == [] && err == Some(source.openError)
    ensures source.Scanned? && source.scanError.Some? ==> targets == [] && err == source.scanError
    ensures source.Scanned? && source.scanError.None? ==>
              targets == NonBlankTrimmed(source.lines) && err == None
  {
    if source.OpenFailed? {
      return [], Some(source.openError);
    }
    var lines := source.lines;
    targets := [];
    var i := 0;
    while i < |lines|
      invariant 0 <= i <= |lines|
      invariant targets == NonBlankTrimmed(lines[..i])
    {
      var line := TrimSpace(lines[i]);
      NonBlankTrimmedStep(lines, i);
      i := i + 1;
      if line == "" {
        continue;
      }
      targets := targets + [line];
    }
    assert lines[..i] == lines;
    if source.scanError.Some? {
      return [], source.scanError;
    }
    err := None;
  }

  /** One more line read extends the kept targets by that line's contribution. */
  lemma NonBlankTrimmedStep(lines: seq<string>, i: nat)
    requires i < |lines|
    ensures NonBlankTrimmed(lines[..i + 1])
         == NonBlankTrimmed(lines[..i]) + (if TrimSpace(lines[i]) == "" then [] else [TrimSpace(lines[i])])
  {
    assert lines[..i + 1] == lines[..i] + [lines[i]];
    NonBlankTrimmedAppend(lines[..i], [lines[i]]);
    NonBlankTrimmedSingle(lines[i]);
  }

  /** Filtering distributes over concatenation: the output keeps the input's order. */
  lemma {:induction false} NonBlankTrimmedAppend(a: seq<string>, b: seq<string>)
    ensures NonBlankTrimmed(a + b) == NonBlankTrimmed(a) + NonBlankTrimmed(b)
  {
    if a == [] {
      assert a + b == b;
    } else {
      assert (a + b)[0] == a[0];
      assert (a + b)[1..] == a[1..] + b;
      NonBlankTrimmedAppend(a[1..], b);
      var t := TrimSpace(a[0]);
      var head: seq<string> := if t == "" then [] else [t];
      calc {
        NonBlankTrimmed(a + b);
        head + NonBlankTrimmed(a[1..] + b);
        head + (NonBlankTrimmed(a[1..]) + NonBlankTrimmed(b));
        (head + NonBlankTrimmed(a[1..])) + NonBlankTrimmed(b);
      }
    }
  }

  /** One line yields its trimmed text, or nothing when that text is empty. */
  lemma NonBlankTrimmedSingle(line: string)
    ensures NonBlankTrimmed([line]) == if TrimSpace(line) == "" then [] else [TrimSpace(line)]
  {
  }

  /** Every target is non-empty and has no leading or trailing whitespace. */
  lemma {:induction false} NonBlankTrimmedElements(lines: seq<string>)
    ensures forall k :: 0 <= k < |NonBlankTrimmed(lines)| ==>
              var t := NonBlankTrimmed(lines)[k];
              t != "" && !IsSpace(t[0]) && !IsSpace(t[|t| - 1]) && TrimSpace(t) == t
  {
    if lines != [] {
      NonBlankTrimmedElements(lines[1..]);
      TrimSpaceIdempotent(lines[0]);
    }
  }

  /** A target is returned exactly when it is the non-empty trimmed text of some line. */
  lemma {:induction false} NonBlankTrimmedMembership(lines: seq<string>, t: string)
    ensures t in NonBlankTrimmed(lines) <==>
              t != "" && exists i :: 0 <= i < |lines| && TrimSpace(lines[i]) == t
  {
    if lines != [] {
      NonBlankTrimmedMembership(lines[1..], t);
      if exists i :: 0 <= i < |lines[1..]| && TrimSpace(lines[1..][i]) == t {
        var i :| 0 <= i < |lines[1..]| && TrimSpace(lines[1..][i]) == t;
        assert TrimSpace(lines[i + 1]) == t;
      }
      if exists i :: 0 <= i < |lines| && TrimSpace(lines[i]) == t {
        var i :| 0 <= i < |lines| && TrimSpace(lines[i]) == t;
        if i > 0 {
          assert TrimSpace(lines[1..][i - 1]) == t;
        }
      }
    }
  }

  /** The number of lines whose trimmed text is `t`. */
  function LinesTrimmingTo(lines: seq<string>, t: string): (n: nat)
    ensures n <= |lines|
  {
    if lines == [] then 0
    else (if TrimSpace(lines[0]) == t then 1 else 0) + LinesTrimmingTo(lines[1..], t)
  }

  /** No deduplication: a non-empty target occurs once per line that trims to it. */
  lemma {:induction false} NonBlankTrimmedMultiplicity(lines: seq<string>, t: string)
    requires t != ""
    ensures multiset(NonBlankTrimmed(lines))[t] == LinesTrimmingTo(lines, t)
  {
    if lines != [] {
      NonBlankTrimmedMultiplicity(lines[1..], t);
      var h := TrimSpace(lines[0]);
      var rest := NonBlankTrimmed(lines[1..]);
      assert NonBlankTrimmed(lines) == (if h == "" then [] else [h]) + rest;
      assert multiset((if h == "" then [] else [h]) + rest)
          == multiset(if h == "" then [] else [h]) + multiset(rest);
    }
  }
}

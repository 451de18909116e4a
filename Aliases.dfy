/**
 * The alias table read by loadNames (main.go:163-177): every line of the alias
 * file is split on '=', and its trimmed first piece is bound to its trimmed
 * second piece. A line with no '=' makes values[1] index out of range, which
 * ends the process; here it is a Failure carrying the index of that line.
 */
module Aliases {
  import opened Wrappers
  import opened Strings

  /** The (key, value) binding a line makes, or None when the line holds no '='. */
  function ParseLine(line: string): (r: Option<(string, string)>)
    ensures r.None? <==> Malformed(line)
  {
    SplitCount(line, '=');
    var parts := Split(line, '=');
    if |parts| < 2 then None else Some((TrimSpace(parts[0]), TrimSpace(parts[1])))
  }

  /** The key is the trimmed text before the first '=', the value the trimmed text up to the next one. */
  lemma ParseLineParts(a: string, b: string)
    requires '=' !in a
    ensures ParseLine(a + "=" + b) == Some((TrimSpace(a), TrimSpace(Split(b, '=')[0])))
  {
    SplitAtFirst(a, b, '=');
  }

  /** Text after a second '=' is dropped. */
  lemma ParseLineDropsRest(a: string, b: string, c: string)
    requires '=' !in a && '=' !in b
    ensures ParseLine(a + "=" + b + "=" + c) == Some((TrimSpace(a), TrimSpace(b)))
  {
    assert a + "=" + b + "=" + c == a + "=" + (b + "=" + c);
    ParseLineParts(a, b + "=" + c);
    SplitAtFirst(b, c, '=');
  }

  /**
   * The table after the lines have been folded into `m` one by one, or the index
   * of the first line that has no '='.
   */
  function Fold(m: map<string, string>, lines: seq<string>): (r: Result<map<string, string>, nat>)
    ensures r.Failure? ==> r.error < |lines|
  {
    if |lines| == 0 then Success(m)
    else
      var prev := Fold(m, lines[..|lines| - 1]);
      if prev.Failure? then prev else Insert(prev.value, lines[|lines| - 1], |lines| - 1)
  }

  /** groupNames[key] = value for line number `i`, or Failure(i) when the line has no '='. */
  function Insert(m: map<string, string>, line: string, i: nat): (r: Result<map<string, string>, nat>)
    ensures r.Failure? <==> Malformed(line)
    ensures r.Failure? ==> r.error == i
  {
    match ParseLine(line)
    case None => Failure(i)
    case Some((k, v)) => Success(m[k := v])
  }

  /** A line is malformed when it binds nothing: it holds no '='. */
  predicate Malformed(line: string)
  {
    '=' !in line
  }

  /** Every line binds a key. */
  predicate WellFormed(lines: seq<string>)
  {
    forall i :: 0 <= i < |lines| ==> !Malformed(lines[i])
  }

  /** The fold fails exactly when some line is malformed. */
  lemma {:induction false} FoldFailsIffMalformed(m: map<string, string>, lines: seq<string>)
    ensures Fold(m, lines).Success? <==> WellFormed(lines)
  {
    if |lines| > 0 {
      var n := |lines| - 1;
      var init := lines[..n];
      FoldFailsIffMalformed(m, init);
      if WellFormed(lines) {
        forall j | 0 <= j < n
          ensures !Malformed(init[j])
        {
          assert lines[j] == init[j];
        }
      }
      if WellFormed(init) && !Malformed(lines[n]) {
        forall j | 0 <= j < |lines|
          ensures !Malformed(lines[j])
        {
          if j < n {
            assert lines[j] == init[j];
          }
        }
      }
    }
  }

  /** A failing fold reports the first malformed line. */
  lemma {:induction false} FoldFailsAtFirstMalformed(m: map<string, string>, lines: seq<string>)
    requires Fold(m, lines).Failure?
    ensures var i := Fold(m, lines).error;
      && i < |lines| && Malformed(lines[i])
      && forall j :: 0 <= j < i ==> !Malformed(lines[j])
  {
    var n := |lines| - 1;
    var init := lines[..n];
    var prev := Fold(m, init);
    if prev.Failure? {
      FoldFailsAtFirstMalformed(m, init);
      var i := prev.error;
      assert lines[i] == init[i];
      forall j | 0 <= j < i
        ensures !Malformed(lines[j])
      {
        assert lines[j] == init[j];
      }
    } else {
      FoldFailsIffMalformed(m, init);
      forall j | 0 <= j < n
        ensures !Malformed(lines[j])
      {
        assert lines[j] == init[j];
      }
    }
  }

  /** Once a prefix of the lines fails, the whole fold fails the same way. */
  lemma {:induction false} FoldFailureLasts(m: map<string, string>, lines: seq<string>, k: nat)
    requires k <= |lines| && Fold(m, lines[..k]).Failure?
    ensures Fold(m, lines) == Fold(m, lines[..k])
    decreases |lines| - k
  {
    if k < |lines| {
      assert lines[..k + 1][..k] == lines[..k];
      FoldFailureLasts(m, lines, k + 1);
    } else {
      assert lines[..k] == lines;
    }
  }

  /** The value the last well-formed line with key `k` binds it to, if any. */
  function LastBinding(lines: seq<string>, k: string): Option<string>
  {
    if |lines| == 0 then None
    else
      match ParseLine(lines[|lines| - 1])
      case Some((k', v)) =>
        if k' == k then Some(v) else LastBinding(lines[..|lines| - 1], k)
      case None => LastBinding(lines[..|lines| - 1], k)
  }

  function Get(m: map<string, string>, k: string): Option<string>
  {
    if k in m then Some(m[k]) else None
  }

  /**
   * A later line overrides an earlier one: after a successful fold, a key is bound
   * to its value on its last line, and a key on no line keeps its binding in `m`.
   */
  lemma {:induction false} FoldLookup(m: map<string, string>, lines: seq<string>, k: string)
    requires Fold(m, lines).Success?
    ensures Get(Fold(m, lines).value, k) == if LastBinding(lines, k).Some? then LastBinding(lines, k) else Get(m, k)
  {
    if |lines| > 0 {
      FoldLookup(m, lines[..|lines| - 1], k);
    }
  }
}

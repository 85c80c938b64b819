/**
 * Prompt templates and Python's `str.format(**kwargs)` on them.  A template
 * is kept as its skeleton: literal text and `{name}` placeholders in order.
 * The literal wording of the prompts is not modelled, only where the
 * placeholders stand.
 */
module Templates {
  import opened Wrappers
  import opened PyStr

  datatype Segment = Text(text: string) | Hole(name: string)

  type Template = seq<Segment>

  /** The template has a `{name}` placeholder. */
  predicate HasHole(t: Template, name: string) {
    exists i :: 0 <= i < |t| && t[i] == Hole(name)
  }

  /** Every placeholder of the template has an argument. */
  predicate Covers(t: Template, args: map<string, string>) {
    forall i :: 0 <= i < |t| && t[i].Hole? ==> t[i].name in args
  }

  /**
   * `t.format(**args)`: the placeholders are filled left to right; the first
   * placeholder without an argument raises `KeyError`.  Unused arguments are
   * ignored.
   */
  function Format(t: Template, args: map<string, string>): (r: Result<string, string>)
    ensures r.Success? <==> Covers(t, args)
    ensures r.Failure? ==> exists i :: 0 <= i < |t| && t[i] == Hole(r.error) && r.error !in args
                                       && Covers(t[..i], args)
    decreases |t|
  {
    if t == [] then Success("")
    else
      var rest := Format(t[1..], args);
      match t[0]
      case Text(s) =>
        (match rest
         case Success(tail) => Success(s + tail)
         case Failure(k) =>
           FirstMissingShifts(t, args, k);
           Failure(k))
      case Hole(n) =>
        if n !in args then
          assert t[0] == Hole(n) && Covers(t[..0], args);
          Failure(n)
        else
          match rest
          case Success(tail) => Success(args[n] + tail)
          case Failure(k) =>
            FirstMissingShifts(t, args, k);
            Failure(k)
  }

  /** A first missing placeholder of the tail is one of the whole template when the head is covered. */
  lemma FirstMissingShifts(t: Template, args: map<string, string>, k: string)
    requires |t| > 0 && (t[0].Hole? ==> t[0].name in args)
    requires exists j :: 0 <= j < |t[1..]| && t[1..][j] == Hole(k) && k !in args && Covers(t[1..][..j], args)
    ensures exists i :: 0 <= i < |t| && t[i] == Hole(k) && k !in args && Covers(t[..i], args)
  {
    var j :| 0 <= j < |t[1..]| && t[1..][j] == Hole(k) && k !in args && Covers(t[1..][..j], args);
    assert t[j + 1] == Hole(k);
    var pre := t[..j + 1];
    forall i | 0 <= i < |pre| && pre[i].Hole? ensures pre[i].name in args {
      if i > 0 {
        assert pre[i] == t[1..][..j][i - 1];
      }
    }
  }

  /** What one segment contributes: its text, or its placeholder's argument. */
  function SegmentValue(seg: Segment, args: map<string, string>): string
    requires seg.Hole? ==> seg.name in args
  {
    match seg
    case Text(s) => s
    case Hole(n) => args[n]
  }

  /** A covered template formats to its first segment's value followed by the formatted rest. */
  lemma FormatStep(t: Template, args: map<string, string>)
    requires t != [] && Covers(t, args)
    ensures Covers(t[1..], args)
    ensures Format(t, args) == Success(SegmentValue(t[0], args) + Format(t[1..], args).value)
  {
    assert t[0].Hole? ==> t[0].name in args;
    forall i | 0 <= i < |t[1..]| && t[1..][i].Hole? ensures t[1..][i].name in args {
      assert t[1..][i] == t[i + 1];
    }
  }

  /** A formatted template contains the argument of each of its placeholders. */
  lemma {:induction false} FormatContainsArgument(t: Template, args: map<string, string>, name: string)
    requires HasHole(t, name) && Covers(t, args)
    ensures name in args && Format(t, args).Success? && Contains(Format(t, args).value, args[name])
    decreases |t|
  {
    var k :| 0 <= k < |t| && t[k] == Hole(name);
    FormatStep(t, args);
    var tail := Format(t[1..], args).value;
    if k == 0 {
      ContainsMiddle("", args[name], tail);
      assert "" + args[name] + tail == SegmentValue(t[0], args) + tail;
    } else {
      assert t[1..][k - 1] == Hole(name);
      FormatContainsArgument(t[1..], args, name);
      ContainsAfterPrefix(SegmentValue(t[0], args), tail, args[name]);
    }
  }
}

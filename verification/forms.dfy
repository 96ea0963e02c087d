/**
 * The part of the form schemas the pages write down: which field fails and
 * with which message. Each failing field contributes one issue, in the order
 * the schema lists the fields.
 */
module Forms {

  datatype Issue = Issue(field: string, message: string)

  /** Some issue in `issues` concerns `field`. */
  predicate Flags(issues: seq<Issue>, field: string)
  {
    exists i :: 0 <= i < |issues| && issues[i].field == field
  }

  /** One schema rule on one field: a single issue when `ok` fails, none otherwise. */
  function Check(field: string, ok: bool, message: string): (issues: seq<Issue>)
    ensures issues == [] <==> ok
    ensures |issues| <= 1
    ensures forall i :: 0 <= i < |issues| ==> issues[i] == Issue(field, message)
  {
    if ok then [] else [Issue(field, message)]
  }

  /** When every issue concerns `g`, the list flags `h` exactly when it is non-empty and `h` is `g`. */
  lemma FlagsUniform(issues: seq<Issue>, g: string, h: string)
    requires forall i :: 0 <= i < |issues| ==> issues[i].field == g
    ensures Flags(issues, h) <==> issues != [] && g == h
  {
    if issues != [] && g == h {
      assert issues[0].field == h;
    }
  }

  /** `z.string().min(n, { message })` applied to one field. */
  function MinLength(field: string, value: string, n: nat, message: string): (issues: seq<Issue>)
    ensures Flags(issues, field) <==> |value| < n
    ensures issues == [] <==> |value| >= n
    ensures forall i :: 0 <= i < |issues| ==> issues[i] == Issue(field, message)
  {
    var issues := Check(field, |value| >= n, message);
    FlagsUniform(issues, field, field);
    issues
  }

  lemma FlagsAppend(a: seq<Issue>, b: seq<Issue>, field: string)
    ensures Flags(a + b, field) <==> Flags(a, field) || Flags(b, field)
  {
    if Flags(a + b, field) {
      var i :| 0 <= i < |a + b| && (a + b)[i].field == field;
      if i >= |a| {
        assert b[i - |a|].field == field;
      }
    }
    if Flags(b, field) {
      var j :| 0 <= j < |b| && b[j].field == field;
      assert (a + b)[|a| + j].field == field;
    }
    if Flags(a, field) {
      var j :| 0 <= j < |a| && a[j].field == field;
      assert (a + b)[j].field == field;
    }
  }
}

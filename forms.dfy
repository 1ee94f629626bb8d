/**
 * What the login and signup schemas report. A zod string schema runs its
 * checks in declaration order and records an issue for each one that fails
 * (length checks do not stop the later ones); the zod resolver of
 * react-hook-form then shows, under each field, the message of the first
 * issue on that field's path.
 */
module Forms {
  import opened Wrappers
  import Decimal

  datatype Field = Username | Password | CfrmPassword

  /** One failed check: the field it is reported on and its message. */
  datatype Issue = Issue(path: Field, message: string)

  const AtLeastSix := "Must contain at least 6 character(s)"

  /** zod's default message for a failed `.max(n)` on a string. */
  function AtMostMessage(n: nat): string
  {
    "String must contain at most " + Decimal.ShowInt(n) + " character(s)"
  }

  /** `.min(n, { message })` on `field`. */
  function MinLength(field: Field, value: string, n: nat, message: string): (issues: seq<Issue>)
    ensures issues == [] <==> n <= |value|
    ensures |issues| <= 1
    ensures forall x :: x in issues ==> x == Issue(field, message)
  {
    if |value| < n then [Issue(field, message)] else []
  }

  /** `.max(n)` on `field`, with zod's default message. */
  function MaxLength(field: Field, value: string, n: nat): (issues: seq<Issue>)
    ensures issues == [] <==> |value| <= n
    ensures |issues| <= 1
    ensures forall x :: x in issues ==> x == Issue(field, AtMostMessage(n))
  {
    if |value| > n then [Issue(field, AtMostMessage(n))] else []
  }

  /** The issues reported on one field, in the order they were found. */
  function On(issues: seq<Issue>, field: Field): (r: seq<Issue>)
  {
    if issues == [] then []
    else (if issues[0].path == field then [issues[0]] else []) + On(issues[1..], field)
  }

  /** The message shown under `field`: that of the first issue on its path. */
  function FirstMessage(issues: seq<Issue>, field: Field): (m: Option<string>)
    ensures m.None? <==> On(issues, field) == []
    ensures m.Some? ==> m.value == On(issues, field)[0].message
  {
    if issues == [] then None
    else if issues[0].path == field then Some(issues[0].message)
    else FirstMessage(issues[1..], field)
  }

  /** Issues all on `field` are all kept. */
  lemma {:induction false} OnKeep(issues: seq<Issue>, field: Field)
    requires forall x :: x in issues ==> x.path == field
    ensures On(issues, field) == issues
  {
    if issues != [] {
      OnKeep(issues[1..], field);
      assert issues == [issues[0]] + issues[1..];
    }
  }

  /** Issues all elsewhere are all dropped. */
  lemma {:induction false} OnDrop(issues: seq<Issue>, field: Field)
    requires forall x :: x in issues ==> x.path != field
    ensures On(issues, field) == []
  {
    if issues != [] {
      OnDrop(issues[1..], field);
    }
  }

  lemma {:induction false} OnConcat(a: seq<Issue>, b: seq<Issue>, field: Field)
    ensures On(a + b, field) == On(a, field) + On(b, field)
  {
    if a != [] {
      var head := if a[0].path == field then [a[0]] else [];
      assert (a + b)[0] == a[0] && (a + b)[1..] == a[1..] + b;
      assert On(a + b, field) == head + On(a[1..] + b, field);
      OnConcat(a[1..], b, field);
      assert On(a, field) == head + On(a[1..], field);
    } else {
      assert a + b == b;
    }
  }

  /**
   * A run of issues on `field`, between issues on other fields: the field
   * collects exactly that run.
   */
  lemma OnOwnRun(before: seq<Issue>, run: seq<Issue>, after: seq<Issue>, field: Field)
    requires forall x :: x in before ==> x.path != field
    requires forall x :: x in run ==> x.path == field
    requires forall x :: x in after ==> x.path != field
    ensures On(before + run + after, field) == run
  {
    OnConcat(before + run, after, field);
    OnConcat(before, run, field);
    OnDrop(before, field);
    OnKeep(run, field);
    OnDrop(after, field);
    assert [] + run + [] == run;
  }
}

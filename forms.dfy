/** What the login and register pages share: the issues a schema reports, the
    conversion of those issues into per-field error messages done in both catch
    blocks, and the status banner. */
module Forms {

  /** One validation issue: the first element of its path (a form field) and its message.
      Every issue the two schemas raise has a field name as its path, so the
      `if (err.path[0])` guard never skips one. */
  datatype Issue<F> = Issue(path: F, message: string)

  /** A single schema check: no issue when it passes, one issue when it fails. */
  function Check<F>(ok: bool, path: F, message: string): (issues: seq<Issue<F>>)
  {
    if ok then [] else [Issue(path, message)]
  }

  /** No issue after the i-th one is on the same field. */
  predicate IsLastOnPath<F(==)>(issues: seq<Issue<F>>, i: nat)
    requires i < |issues|
  {
    forall j :: i < j < |issues| ==> issues[j].path != issues[i].path
  }

  /** The forEach over the issues: each issue in turn writes its message under its field. */
  function FieldErrors<F(==)>(issues: seq<Issue<F>>): (errors: map<F, string>)
    ensures |issues| == 0 ==> errors == map[]
    ensures |issues| > 0 ==> issues[|issues| - 1].path in errors
    ensures |issues| > 0 ==> errors[issues[|issues| - 1].path] == issues[|issues| - 1].message
    decreases |issues|
  {
    if |issues| == 0 then map[]
    else
      var last := issues[|issues| - 1];
      FieldErrors(issues[..|issues| - 1])[last.path := last.message]
  }

  /** The fields with an error are exactly the fields some issue is on. */
  lemma {:induction false} FieldErrorsDomain<F>(issues: seq<Issue<F>>, f: F)
    ensures f in FieldErrors(issues) <==> exists i :: 0 <= i < |issues| && issues[i].path == f
    decreases |issues|
  {
    if |issues| > 0 {
      var init := issues[..|issues| - 1];
      FieldErrorsDomain(init, f);
      assert forall i :: 0 <= i < |init| ==> init[i] == issues[i];
    }
  }

  /** A field that several issues share ends with the message of the last of them. */
  lemma {:induction false} FieldErrorsKeepsLast<F>(issues: seq<Issue<F>>, i: nat)
    requires i < |issues| && IsLastOnPath(issues, i)
    ensures issues[i].path in FieldErrors(issues)
    ensures FieldErrors(issues)[issues[i].path] == issues[i].message
    decreases |issues|
  {
    var n := |issues|;
    if i < n - 1 {
      var init := issues[..n - 1];
      assert init[i] == issues[i];
      assert IsLastOnPath(init, i) by {
        forall j | i < j < |init| ensures init[j].path != init[i].path {
          assert init[j] == issues[j];
        }
      }
      assert issues[n - 1].path != issues[i].path;
      FieldErrorsKeepsLast(init, i);
    }
  }

  /** What one check does to the error map: nothing when it passes, and when it fails
      its message is written over whatever is already under its field. */
  function RecordCheck<F>(errors: map<F, string>, ok: bool, path: F, message: string): map<F, string>
  {
    if ok then errors else errors[path := message]
  }

  /** The issues of one more check, after earlier issues, act on the errors the earlier
      issues left exactly as `RecordCheck` says. */
  lemma FieldErrorsThenCheck<F>(issues: seq<Issue<F>>, ok: bool, path: F, message: string)
    ensures FieldErrors(issues + Check(ok, path, message)) == RecordCheck(FieldErrors(issues), ok, path, message)
  {
    if ok {
      assert issues + Check(ok, path, message) == issues;
    } else {
      assert (issues + Check(ok, path, message))[..|issues|] == issues;
    }
  }

  /** The status banner: `Cleared` is `{ type: null, message: "" }`. */
  datatype Status = Cleared | Success(message: string) | Error(message: string)

  const UnexpectedMessage: string := "An unexpected error occurred. Please try again."
  const EmailMessage: string := "Please enter a valid email address"
  const PasswordMessage: string := "Password must be at least 6 characters"
}

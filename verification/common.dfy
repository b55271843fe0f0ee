/**
 * Values shared by every part of the model: optional values, the exceptions
 * the host raises (as error values), and the string helpers the .NET
 * framework supplies (lower-casing, joining).
 */
module Common {

  datatype Option<+T> = None | Some(value: T)

  /** The exception types that the host throws or lets through. */
  datatype ErrorKind =
    | ArgumentNull          // Guard.AgainstNull
    | Format                // Convert.ChangeType of a non-boolean string to bool
    | General               // Guard.Against<Exception> and plain System.Exception
    | ConfigurationErrors   // ConfigurationErrorsException
    | InvalidOperation      // InvalidOperationException
    | InvalidCast           // the (IHost) cast of a created instance
    | MissingConstructor    // AssertDefaultConstructor
    | Install               // InstallException
    | Application           // ApplicationException
    | Collaborator          // raised by a framework or workload collaborator

  datatype Error = Error(kind: ErrorKind, message: string)

  /** A value or the exception that replaced it. */
  datatype Result<+T> = Ok(value: T) | Err(error: Error) {
    predicate IsFailure() { Err? }
    function PropagateFailure<U>(): Result<U>
      requires Err?
    {
      Err(error)
    }
    function Extract(): T
      requires Ok?
    {
      value
    }
  }

  /** A statement that either completes or throws. */
  datatype Outcome = Pass | Fail(error: Error)

  function OutcomeOf(failure: Option<Error>): (r: Outcome)
    ensures r.Fail? <==> failure.Some?
    ensures r.Fail? ==> r.error == failure.value
  {
    match failure
    case None => Pass
    case Some(e) => Fail(e)
  }

  /** The exception a statement lets out, if any. */
  function FailureOf(outcome: Outcome): (r: Option<Error>)
    ensures r.None? <==> outcome == Pass
    ensures r.Some? ==> outcome == Fail(r.value)
  {
    match outcome
    case Pass => None
    case Fail(e) => Some(e)
  }

  /** `"` + s + `"`, as the format strings `"{0}"` of the host write it. */
  function Quoted(s: string): string
  {
    "\"" + s + "\""
  }

  /** Lower-casing of one character (ASCII letters only). */
  function LowerChar(c: char): char
  {
    if 'A' <= c <= 'Z' then (c as int + 32) as char else c
  }

  /** String.ToLower, applied character by character. */
  function Lower(s: string): string
  {
    seq(|s|, i requires 0 <= i < |s| => LowerChar(s[i]))
  }

  predicate IsLowerCase(s: string)
  {
    Lower(s) == s
  }

  lemma LowerIsLowerCase(s: string)
    ensures IsLowerCase(Lower(s))
  {
  }

  predicate NoLineBreak(s: string)
  {
    forall i :: 0 <= i < |s| ==> s[i] != '\n'
  }

  /** String.Join(separator, items). */
  function Join(separator: string, items: seq<string>): string
    decreases |items|
  {
    if |items| == 0 then ""
    else if |items| == 1 then items[0]
    else items[0] + separator + Join(separator, items[1..])
  }

  /** Where item `i` starts inside Join(separator, items). */
  function JoinOffset(separator: string, items: seq<string>, i: nat): nat
    requires i < |items|
    decreases i
  {
    if i == 0 then 0 else |items[0]| + |separator| + JoinOffset(separator, items[1..], i - 1)
  }

  /** Every item appears whole in the joined string, at its offset. */
  lemma {:induction false} JoinShowsEveryItem(separator: string, items: seq<string>, i: nat)
    requires i < |items|
    ensures JoinOffset(separator, items, i) + |items[i]| <= |Join(separator, items)|
    ensures Join(separator, items)[JoinOffset(separator, items, i)..JoinOffset(separator, items, i) + |items[i]|] == items[i]
    decreases i
  {
    var joined := Join(separator, items);
    if i == 0 {
      if |items| > 1 {
        assert joined == items[0] + (separator + Join(separator, items[1..]));
        assert joined[..|items[0]|] == items[0];
      }
    } else {
      var rest := items[1..];
      JoinShowsEveryItem(separator, rest, i - 1);
      var head := items[0] + separator;
      assert joined == head + Join(separator, rest);
      var k := JoinOffset(separator, rest, i - 1);
      assert JoinOffset(separator, items, i) == |head| + k;
      assert joined[|head| + k..|head| + k + |items[i]|] == Join(separator, rest)[k..k + |items[i]|];
    }
  }

  /** Items appear in the joined string in their order, separated. */
  lemma {:induction false} JoinKeepsOrder(separator: string, items: seq<string>, i: nat, j: nat)
    requires i < j < |items|
    ensures JoinOffset(separator, items, i) + |items[i]| + |separator| <= JoinOffset(separator, items, j)
    decreases i
  {
    if i > 0 {
      JoinKeepsOrder(separator, items[1..], i - 1, j - 1);
    }
  }
}

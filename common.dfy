/** Values shared by every part of the model: optional values, JavaScript
    rejection reasons, results of checks and the state of a promise. */
module Common {

  datatype Option<T> = None | Some(value: T)

  /** A JavaScript rejection reason: a bare string, or an `Error` object. */
  datatype JsError = Text(text: string) | ErrorObject(message: string)
  {
    /** `err.toString()`: a string is itself, an `Error` prints as "Error: <message>". */
    function ToString(): string
    {
      match this
      case Text(t) => t
      case ErrorObject(m) => "Error: " + m
    }
  }

  /** The outcome of a check or a step that resolves with a value or rejects. */
  datatype Result<T> = Ok(value: T) | Err(error: JsError)
  {
    function Failure(): Option<JsError>
    {
      match this
      case Ok(_) => None
      case Err(e) => Some(e)
    }
  }

  /** The state of a JavaScript promise. `Pending` is also what a callback
      that neither resolves nor rejects contributes. */
  datatype Settlement<T, E> = Pending | Resolved(value: T) | Rejected(reason: E)

  /** A promise that is already settled ignores later calls of resolve and reject. */
  function Settle<T, E>(p: Settlement<T, E>, q: Settlement<T, E>): Settlement<T, E>
  {
    if p.Pending? then q else p
  }

  /** `Promise.all` over checks that have all settled: the first rejection, in the
      order the checks are listed, or none. */
  function FirstFailure(checks: seq<Option<JsError>>): (r: Option<JsError>)
    ensures r.None? <==> forall k :: 0 <= k < |checks| ==> checks[k].None?
    ensures r.Some? ==> r in checks
  {
    if checks == [] then None
    else if checks[0].Some? then checks[0]
    else FirstFailure(checks[1..])
  }

  /** The rejection `Promise.all` reports is the first one listed. */
  lemma {:induction false} FirstFailureIsFirst(checks: seq<Option<JsError>>)
    requires FirstFailure(checks).Some?
    ensures exists k :: 0 <= k < |checks| && checks[k] == FirstFailure(checks) &&
                        forall j :: 0 <= j < k ==> checks[j].None?
  {
    if checks[0].None? {
      FirstFailureIsFirst(checks[1..]);
      var k :| 0 <= k < |checks[1..]| && checks[1..][k] == FirstFailure(checks[1..]) &&
               forall j :: 0 <= j < k ==> checks[1..][j].None?;
      assert checks[k + 1] == FirstFailure(checks);
      forall j | 0 <= j < k + 1 ensures checks[j].None? {
        if j > 0 { assert checks[j] == checks[1..][j - 1]; }
      }
    } else {
      assert checks[0] == FirstFailure(checks);
    }
  }

  /** `Promise.all` over three checks: the first of them that rejected. */
  lemma FirstFailureOfThree(a: Option<JsError>, b: Option<JsError>, c: Option<JsError>)
    ensures FirstFailure([a, b, c]) == if a.Some? then a else if b.Some? then b else c
  {
    assert [c][1..] == [];
    assert FirstFailure([c]) == c;
    assert [b, c][1..] == [c];
    assert FirstFailure([b, c]) == if b.Some? then b else c;
    assert [a, b, c][1..] == [b, c];
  }

  /** Handlers run one after another against the same promise: the first one
      that resolves or rejects decides, and later calls are ignored. */
  function FirstSettled<T, E>(verdicts: seq<Settlement<T, E>>): (p: Settlement<T, E>)
    ensures p.Pending? <==> forall k :: 0 <= k < |verdicts| ==> verdicts[k].Pending?
    ensures !p.Pending? ==> p in verdicts
  {
    if verdicts == [] then Pending else Settle(verdicts[0], FirstSettled(verdicts[1..]))
  }

  /** The settlement is the one of the first handler that does not leave the promise pending. */
  lemma {:induction false} FirstSettledIsFirst<T, E>(verdicts: seq<Settlement<T, E>>, k: int)
    requires 0 <= k < |verdicts| && !verdicts[k].Pending?
    requires forall j :: 0 <= j < k ==> verdicts[j].Pending?
    ensures FirstSettled(verdicts) == verdicts[k]
  {
    if k > 0 {
      forall j | 0 <= j < k - 1 ensures verdicts[1..][j].Pending? {
        assert verdicts[1..][j] == verdicts[j + 1];
      }
      FirstSettledIsFirst(verdicts[1..], k - 1);
    }
  }

  /** Running one more handler changes the outcome only while it is still pending. */
  lemma {:induction false} FirstSettledSnoc<T, E>(verdicts: seq<Settlement<T, E>>, v: Settlement<T, E>)
    ensures FirstSettled(verdicts + [v]) == Settle(FirstSettled(verdicts), v)
    decreases |verdicts|
  {
    if verdicts == [] {
      assert verdicts + [v] == [v];
    } else {
      assert (verdicts + [v])[1..] == verdicts[1..] + [v];
      FirstSettledSnoc(verdicts[1..], v);
    }
  }

  /** Once settled, later handlers cannot change the outcome. */
  lemma {:induction false} FirstSettledAppend<T, E>(a: seq<Settlement<T, E>>, b: seq<Settlement<T, E>>)
    requires !FirstSettled(a).Pending?
    ensures FirstSettled(a + b) == FirstSettled(a)
    decreases |a|
  {
    assert (a + b)[0] == a[0];
    if a[0].Pending? {
      assert (a + b)[1..] == a[1..] + b;
      FirstSettledAppend(a[1..], b);
    }
  }
}

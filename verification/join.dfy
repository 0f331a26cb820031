/**
 * `try_join_all` over per-entry outcomes, taken sequentially: the outcomes
 * are collected positionally, and the collect succeeds only when every
 * outcome did.
 */
module Join {
  import opened Results

  /**
   * All-or-nothing collect. On success the values sit in the positions of the
   * outcomes they came from; on failure the error is that of the first
   * failed outcome.
   */
  function CollectAll<T, E>(rs: seq<Result<T, E>>): (r: Result<seq<T>, E>)
    ensures r.Success? <==> forall i :: 0 <= i < |rs| ==> rs[i].Success?
    ensures r.Success? ==> |r.value| == |rs|
    ensures r.Success? ==> forall i :: 0 <= i < |rs| ==> r.value[i] == rs[i].value
    ensures r.Failure? ==>
      exists k :: 0 <= k < |rs| && rs[k] == Failure(r.error) &&
        forall j :: 0 <= j < k ==> rs[j].Success?
  {
    if |rs| == 0 then Success([])
    else
      match rs[0]
      case Failure(e) => Failure(e)
      case Success(v) =>
        match CollectAll(rs[1..])
        case Failure(e) => Failure(e)
        case Success(vs) => Success([v] + vs)
  }
}

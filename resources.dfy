/**
 * The result envelope every repository operation emits (util/Resource), and
 * the two Kotlin collection helpers the screen state holders rely on.
 */
module Resources {

  /** A Kotlin nullable value: `None` is `null`. */
  datatype Option<+T> = None | Some(value: T)

  /**
   * One notification of a repository flow.
   * Loading: the operation started and carries no data.
   * Success: the produced value, which the state holders read as nullable.
   * Error: a human-readable message.
   */
  datatype Resource<+T> = Loading | Success(data: Option<T>) | Error(message: string)

  /** `data ?: emptyList()`: a missing list reads as the empty list. */
  function OrEmpty<T>(data: Option<seq<T>>): seq<T>
  {
    match data
    case Some(xs) => xs
    case None => []
  }

  /** Kotlin's `find`: the first element that satisfies `p`, or null. */
  function Find<T>(xs: seq<T>, p: T -> bool): (r: Option<T>)
    ensures r.Some? <==> exists i :: 0 <= i < |xs| && p(xs[i])
    ensures r.Some? ==>
      exists i :: 0 <= i < |xs| && xs[i] == r.value && p(xs[i]) &&
        forall j :: 0 <= j < i ==> !p(xs[j])
  {
    if xs == [] then None
    else if p(xs[0]) then Some(xs[0])
    else
      var r := Find(xs[1..], p);
      assert forall i :: 0 < i < |xs| ==> xs[i] == xs[1..][i - 1];
      r
  }

  /**
   * The data of the last `Success` in a flow's notifications, if there is
   * one: the value a collector that replaces its state on every `Success`
   * ends up holding.
   */
  function LastSuccess<T>(es: seq<Resource<T>>): (r: Option<Option<T>>)
    ensures r.Some? <==> exists i :: 0 <= i < |es| && es[i].Success?
    ensures r.Some? ==>
      exists i :: 0 <= i < |es| && es[i] == Success(r.value) &&
        forall j :: i < j < |es| ==> !es[j].Success?
  {
    if es == [] then None
    else
      var later := LastSuccess(es[1..]);
      assert forall i :: 0 < i < |es| ==> es[i] == es[1..][i - 1];
      if later.Some? then later
      else if es[0].Success? then Some(es[0].data)
      else None
  }

  /** The message of the last `Error` in a flow's notifications, if there is one. */
  function LastError<T>(es: seq<Resource<T>>): (r: Option<string>)
    ensures r.Some? <==> exists i :: 0 <= i < |es| && es[i].Error?
    ensures r.Some? ==>
      exists i :: 0 <= i < |es| && es[i] == Error(r.value) &&
        forall j :: i < j < |es| ==> !es[j].Error?
  {
    if es == [] then None
    else
      var later := LastError(es[1..]);
      assert forall i :: 0 < i < |es| ==> es[i] == es[1..][i - 1];
      if later.Some? then later
      else if es[0].Error? then Some(es[0].message)
      else None
  }

  /** Kotlin's `getOrNull`: the element at `index`, or null when out of range. */
  function GetOrNull<T>(xs: seq<T>, index: int): Option<T>
  {
    if 0 <= index < |xs| then Some(xs[index]) else None
  }
}

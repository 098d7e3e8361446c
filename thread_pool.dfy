/** The `ThreadPoolExecutor` / `as_completed` pattern of the filters. Tasks are
    modelled as running one after another, to completion, in the order they
    complete; the order is a parameter: any arrangement of the submitted tasks. */
module ThreadPool {

  /** `order` lists each of the tasks `0 .. n - 1` exactly once: the order in
      which `as_completed` hands them back. */
  predicate IsOrder(order: seq<nat>, n: nat)
  {
    && |order| == n
    && (forall k :: 0 <= k < |order| ==> order[k] < n)
    && (forall i :: 0 <= i < n ==> i in order)
    && (forall k, l :: 0 <= k < l < |order| ==> order[k] != order[l])
  }
}

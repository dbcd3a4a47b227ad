/** What a list of things last said, and first. */
module Logs {
  import opened Wrappers

  // The last value given by one of `xs`.
  function LastOf<E, T>(xs: seq<E>, give: E -> Option<T>): Option<T> {
    if xs == [] then None else
      var n := |xs| - 1;
      if give(xs[n]).Some? then give(xs[n]) else LastOf(xs[..n], give)
  }

  function FirstOf<E, T>(xs: seq<E>, give: E -> Option<T>): Option<T> {
    if xs == [] then None else
      var n := |xs| - 1;
      if FirstOf(xs[..n], give).Some? then FirstOf(xs[..n], give) else give(xs[n])
  }

  function Or<T>(o: Option<T>, otherwise: T): T {
    if o.Some? then o.value else otherwise
  }

  function Later<T>(before: Option<T>, now: Option<T>): Option<T> {
    if now.Some? then now else before
  }

  function NotEmpty(s: string): Option<string> {
    if s == "" then None else Some(s)
  }

  lemma LastOfNext<E, T>(xs: seq<E>, give: E -> Option<T>)
    requires xs != []
    ensures LastOf(xs, give) == Later(LastOf(xs[..|xs| - 1], give), give(xs[|xs| - 1]))
    ensures FirstOf(xs, give) == Later(give(xs[|xs| - 1]), FirstOf(xs[..|xs| - 1], give))
  {
  }
}

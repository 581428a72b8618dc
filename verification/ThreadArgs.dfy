/**
 * The linked list of finished thread arguments: the executor's critical section, the
 * launcher's, and the launcher's reaping loop. LauncherArgs interleaves them.
 */
module ThreadArgs {
  import opened Base

  /** A `thread_arg`, and whether its thread has been joined and its memory freed. */
  class ThreadArg {
    var link: ThreadArg?
    var freed: bool

    constructor ()
      ensures link == null && !freed
    {
      link, freed := null, false;
    }

    /** Joins the thread and frees the argument, which must not have been freed before. */
    method JoinAndFree()
      requires !freed
      modifies this`freed
      ensures freed
    {
      freed := true;
    }
  }

  /** What the link of the i-th argument of a list should be. */
  function Next(items: seq<ThreadArg>, i: nat): ThreadArg? {
    if i + 1 < |items| then items[i + 1] else null
  }

  /** From first, the links lead through items in order, and end. */
  ghost predicate IsList(first: ThreadArg?, items: seq<ThreadArg>)
    reads items
  {
    && NoDup(items)
    && first == (if items == [] then null else items[0])
    && (forall i {:trigger Next(items, i)} :: 0 <= i < |items| ==> items[i].link == Next(items, i))
  }

  /** A new first argument that links to the old one makes a longer list. */
  lemma ListCons(targ: ThreadArg, first: ThreadArg?, items: seq<ThreadArg>)
    requires IsList(first, items) && targ !in items && targ.link == first
    ensures IsList(targ, [targ] + items)
  {
    var longer := [targ] + items;
    assert NoDup(longer);
    forall i | 0 <= i < |longer|
      ensures longer[i].link == Next(longer, i)
    {
      if 0 < i {
        assert longer[i] == items[i - 1] && items[i - 1].link == Next(items, i - 1);
      }
    }
  }

  class ArgList {
    var head: ThreadArg?
    ghost var items: seq<ThreadArg>

    constructor ()
      ensures Valid() && items == []
    {
      head, items := null, [];
    }

    ghost predicate Valid()
      reads this, items
    {
      IsList(head, items) && forall i :: 0 <= i < |items| ==> !items[i].freed
    }

    /** What an executor does under the list's mutex. */
    method Link(targ: ThreadArg)
      requires Valid() && targ !in items && !targ.freed
      modifies this, targ`link
      ensures Valid() && items == [targ] + old(items)
    {
      ghost var before, first := items, head;
      targ.link := head;
      assert IsList(first, before);
      ListCons(targ, first, before);
      head := targ;
      items := [targ] + items;
    }

    /** What the launcher does under the list's mutex. */
    method Detach() returns (first: ThreadArg?, ghost taken: seq<ThreadArg>)
      requires Valid()
      modifies this
      ensures Valid() && items == []
      ensures taken == old(items) && IsList(first, taken)
    {
      first, taken := head, items;
      head, items := null, [];
    }
  }

  /** Joins and frees the detached arguments, each of them once, in list order. */
  method Reap(first: ThreadArg?, ghost taken: seq<ThreadArg>) returns (order: seq<ThreadArg>)
    requires IsList(first, taken) && forall i :: 0 <= i < |taken| ==> !taken[i].freed
    modifies taken
    ensures order == taken
    ensures forall i :: 0 <= i < |taken| ==> taken[i].freed && taken[i].link == old(taken[i].link)
  {
    var targ := first;
    order := [];
    while targ != null
      invariant |order| <= |taken| && order == taken[..|order|]
      invariant targ == if |order| < |taken| then taken[|order|] else null
      invariant forall i :: 0 <= i < |taken| ==> taken[i].link == old(taken[i].link)
      invariant forall i :: 0 <= i < |order| ==> taken[i].freed
      invariant forall i :: |order| <= i < |taken| ==> !taken[i].freed
      decreases |taken| - |order|
    {
      var temp := targ;
      ghost var n := |order|;
      assert old(taken[n].link) == Next(taken, n);
      targ := targ.link;
      temp.JoinAndFree();
      order := order + [temp];
    }
  }
}

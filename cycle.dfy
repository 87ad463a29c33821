/** The dedup cycle both monitors run: index the current items by key (a later item
    replaces an earlier one with the same key), pick the items whose key the previous run
    did not record, and replace the cache with the new index. */
module Cycle {
  import opened Seqs

  /** The map `d` after `d[key(x)] = x` for each `x` of `s` in turn, starting empty. */
  function IndexBy<T>(s: seq<T>, key: T -> string): (m: map<string, T>)
    ensures forall k :: k in m <==> exists i :: 0 <= i < |s| && key(s[i]) == k
    ensures forall k :: k in m ==> m[k] in s && key(m[k]) == k
  {
    if s == [] then map[]
    else
      var init := s[..|s| - 1];
      var m := IndexBy(init, key)[key(s[|s| - 1]) := s[|s| - 1]];
      assert forall i :: 0 <= i < |init| ==> init[i] == s[i];
      assert forall x :: x in init ==> x in s;
      m
  }

  lemma IndexBySnoc<T>(s: seq<T>, x: T, key: T -> string)
    ensures IndexBy(s + [x], key) == IndexBy(s, key)[key(x) := x]
  {
    assert (s + [x])[..|s|] == s;
  }

  /** For a repeated key, the last item with that key is the one kept. */
  lemma {:induction false} IndexByLastWins<T>(s: seq<T>, key: T -> string, i: nat)
    requires i < |s|
    requires forall j :: i < j < |s| ==> key(s[j]) != key(s[i])
    ensures key(s[i]) in IndexBy(s, key) && IndexBy(s, key)[key(s[i])] == s[i]
  {
    if i < |s| - 1 {
      IndexByLastWins(s[..|s| - 1], key, i);
    }
  }

  /** The test `key(x) not in previous`. */
  function NotSeen<T>(key: T -> string, seen: set<string>): T -> bool {
    x => key(x) !in seen
  }

  /** The items whose key is not among the previously recorded ones, in order.  Nothing
      records keys during the run, so a key repeated within one run is picked as often
      as it occurs. */
  function Unseen<T(!new)>(s: seq<T>, key: T -> string, seen: set<string>): (r: seq<T>)
    ensures forall x :: x in r <==> x in s && key(x) !in seen
  {
    Filter(s, NotSeen(key, seen))
  }

  /** With nothing recorded before, every item is new, repeats included. */
  lemma {:induction false} UnseenFirstRun<T(!new)>(s: seq<T>, key: T -> string)
    ensures Unseen(s, key, {}) == s
  {
    if s != [] {
      UnseenFirstRun(s[..|s| - 1], key);
      assert s == s[..|s| - 1] + [s[|s| - 1]];
    }
  }

  /** Idempotence of the cycle: when the recorded keys are those of the index a run on
      the same items saved, the next run picks nothing. */
  lemma RerunPicksNothing<T(!new)>(s: seq<T>, key: T -> string)
    ensures Unseen(s, key, IndexBy(s, key).Keys) == []
  {
    var r := Unseen(s, key, IndexBy(s, key).Keys);
    if r != [] {
      HeadIsMember(r);
    }
  }
}

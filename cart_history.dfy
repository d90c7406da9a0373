/** What a cart looks like after a whole run of addToCart, increment and
    decrement calls, each applied to the cart the previous one left. */
module CartHistory {
  import opened Cart

  /** One call of a cart callback. */
  datatype Action = AddToCart(item: CatalogItem) | Increment(id: string) | Decrement(id: string)

  function Apply(s: seq<Product>, a: Action): seq<Product> {
    match a
    case AddToCart(item) => AddedToCart(s, item)
    case Increment(id) => Incremented(s, id)
    case Decrement(id) => Decremented(s, id)
  }

  /** The cart after the calls in `actions`, in order, starting from `s`. */
  function Replay(s: seq<Product>, actions: seq<Action>): seq<Product>
    decreases |actions|
  {
    if actions == [] then s else Replay(Apply(s, actions[0]), actions[1..])
  }

  /** The ids named by the addToCart calls among `actions`, in call order. */
  function AddedIds(actions: seq<Action>): seq<string> {
    if actions == [] then []
    else (if actions[0].AddToCart? then [actions[0].item.id] else []) + AddedIds(actions[1..])
  }

  /** How many of `actions` are addToCart calls for `id`. */
  function AddCount(actions: seq<Action>, id: string): nat {
    if actions == [] then 0
    else (if actions[0].AddToCart? && actions[0].item.id == id then 1 else 0) + AddCount(actions[1..], id)
  }

  /** `known`, followed by every id of `ids` not seen before, in order of first sight. */
  function FirstSeen(known: seq<string>, ids: seq<string>): seq<string>
    decreases |ids|
  {
    if ids == [] then known
    else FirstSeen(if ids[0] in known then known else known + [ids[0]], ids[1..])
  }

  /** `DistinctIds` of `Cart`, stated on a list of ids; see `DistinctIdsAsNoDuplicates`. */
  ghost predicate NoDuplicates(xs: seq<string>) {
    forall i, j :: 0 <= i < j < |xs| ==> xs[i] != xs[j]
  }

  /** A cart has distinct ids exactly when its list of ids has no repeats. */
  lemma DistinctIdsAsNoDuplicates(s: seq<Product>)
    ensures DistinctIds(s) <==> NoDuplicates(Ids(s))
  {
    assert forall i :: 0 <= i < |s| ==> Ids(s)[i] == s[i].id;
  }

  predicate OnlyAdds(actions: seq<Action>) {
    forall k :: 0 <= k < |actions| ==> actions[k].AddToCart?
  }

  /** First-seen order keeps what was known in front, drops repeats, and
      holds exactly the ids known or seen. */
  lemma {:induction false} FirstSeenFacts(known: seq<string>, ids: seq<string>)
    requires NoDuplicates(known)
    ensures NoDuplicates(FirstSeen(known, ids))
    ensures |known| <= |FirstSeen(known, ids)| && FirstSeen(known, ids)[..|known|] == known
    ensures forall x :: x in FirstSeen(known, ids) <==> x in known || x in ids
    decreases |ids|
  {
    if ids != [] {
      var next := if ids[0] in known then known else known + [ids[0]];
      FirstSeenFacts(next, ids[1..]);
      assert next[..|known|] == known;
      assert forall x :: x in ids <==> x == ids[0] || x in ids[1..];
    }
  }

  /** Every run of calls keeps ids distinct and quantities at least 1. */
  lemma {:induction false} ReplayPreservesValid(s: seq<Product>, actions: seq<Action>)
    requires Valid(s)
    ensures Valid(Replay(s, actions))
    decreases |actions|
  {
    if actions != [] {
      match actions[0] {
        case AddToCart(item) => AddToCartPreservesValid(s, item);
        case Increment(id) => IncrementPreservesValid(s, id);
        case Decrement(id) => DecrementPreservesValid(s, id);
      }
      ReplayPreservesValid(Apply(s, actions[0]), actions[1..]);
    }
  }

  /** The order of the lines is the order in which addToCart first saw each id,
      after the lines already there; increment and decrement calls never move,
      add or remove a line. */
  lemma {:induction false} ReplayOrder(s: seq<Product>, actions: seq<Action>)
    ensures Ids(Replay(s, actions)) == FirstSeen(Ids(s), AddedIds(actions))
    decreases |actions|
  {
    if actions != [] {
      var a, rest := actions[0], actions[1..];
      ReplayOrder(Apply(s, a), rest);
      match a
      case AddToCart(item) =>
        AddToCartIds(s, item);
        assert AddedIds(actions) == [item.id] + AddedIds(rest);
        assert ([item.id] + AddedIds(rest))[1..] == AddedIds(rest);
      case Increment(id) =>
        UpdatesKeepIds(s, id);
        assert AddedIds(actions) == AddedIds(rest);
      case Decrement(id) =>
        UpdatesKeepIds(s, id);
        assert AddedIds(actions) == AddedIds(rest);
    }
  }

  /** Over a run of addToCart calls, the quantity of each id grows by the number
      of calls for that id. */
  lemma {:induction false} ReplayAddsCount(s: seq<Product>, actions: seq<Action>, id: string)
    requires OnlyAdds(actions)
    ensures QuantityOf(Replay(s, actions), id) == QuantityOf(s, id) + AddCount(actions, id)
    decreases |actions|
  {
    if actions != [] {
      assert actions[0].AddToCart?;
      QuantityAfterAddToCart(s, actions[0].item, id);
      assert OnlyAdds(actions[1..]) by {
        forall k | 0 <= k < |actions[1..]| ensures actions[1..][k].AddToCart? {
          assert actions[1..][k] == actions[k + 1];
        }
      }
      ReplayAddsCount(Apply(s, actions[0]), actions[1..], id);
    }
  }

  /** Starting from the empty cart, a run of addToCart calls with repeated ids
      leaves one line per distinct id, in first-seen order, whose quantity is
      the number of calls for that id. */
  lemma AddingFromEmpty(actions: seq<Action>, id: string)
    requires OnlyAdds(actions)
    ensures Valid(Replay([], actions))
    ensures Ids(Replay([], actions)) == FirstSeen([], AddedIds(actions))
    ensures NoDuplicates(Ids(Replay([], actions)))
    ensures NoDuplicates(FirstSeen([], AddedIds(actions)))
    ensures id in Ids(Replay([], actions)) <==> id in AddedIds(actions)
    ensures QuantityOf(Replay([], actions), id) == AddCount(actions, id)
  {
    ReplayPreservesValid([], actions);
    ReplayOrder([], actions);
    FirstSeenFacts([], AddedIds(actions));
    ReplayAddsCount([], actions, id);
    DistinctIdsAsNoDuplicates(Replay([], actions));
  }
}

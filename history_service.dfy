/** The history service: it hands history lookups and writes on to the
    history repository, and cuts the last `n` items of a history with
    Python's slice `items[-n:]`. */
module HistoryService {
  import opened Models

  function Min(a: int, b: int): int {
    if a <= b then a else b
  }

  /** Where Python's slice `s[start:]` begins in a sequence of length `len`:
      a negative start counts from the end, and both ends are clamped. */
  function SliceStart(len: nat, start: int): (r: nat)
    ensures r <= len
    ensures start >= 0 ==> r == Min(start, len)
    ensures start < 0 ==> r == len - Min(-start, len)
  {
    if start >= 0 then (if start <= len then start else len)
    else if len + start >= 0 then len + start
    else 0
  }

  /** `items[-n:]`: for a positive `n` the last `n` items (all of them when
      there are fewer); for `n == 0` the whole list, since `-0` is `0`; for a
      negative `n` the list without its first `-n` items. */
  function LastN<T>(items: seq<T>, n: int): (r: seq<T>)
    ensures |r| <= |items| && r == items[|items| - |r|..]
    ensures n > 0 ==> |r| == Min(n, |items|)
    ensures n == 0 ==> r == items
    ensures n < 0 ==> |r| == |items| - Min(-n, |items|)
  {
    items[SliceStart(|items|, -n)..]
  }

  /** The last item added is the only item `items[-1:]` keeps; with `n >= 2`
      it follows the last `n - 1` items before it. */
  lemma LastNOfAppended<T>(items: seq<T>, x: T, n: int)
    requires n >= 1
    ensures n == 1 ==> LastN(items + [x], n) == [x]
    ensures n >= 2 ==> LastN(items + [x], n) == LastN(items, n - 1) + [x]
  {
    if n >= 2 {
      var k := Min(n - 1, |items|);
      assert LastN(items + [x], n) == (items + [x])[|items| - k..];
      assert (items + [x])[|items| - k..] == items[|items| - k..] + [x];
    }
  }

  /** Asking for fewer items keeps the tail of what more items give, and
      asking twice for the same positive number changes nothing. */
  lemma LastNNested<T>(items: seq<T>, m: int, n: int)
    requires 1 <= m <= n
    ensures LastN(LastN(items, n), m) == LastN(items, m)
    ensures LastN(LastN(items, n), n) == LastN(items, n)
  {
    var a := LastN(items, n);
    var b := LastN(items, m);
    assert LastN(a, m) == a[|a| - Min(m, |a|)..];
    assert a[|a| - Min(m, |a|)..] == items[|items| - Min(m, |items|)..];
  }

  /** An in-memory stand-in for the history repository port: the histories
      by id, each holding its items in the order they were added. */
  class HistoryRepo {
    var histories: map<Uuid, History>

    /** Every history is stored under its own id and holds only its own
        items, and no two stored items share an id. */
    ghost predicate Valid()
      reads this
    {
      (forall id :: id in histories ==>
        histories[id].id == id
        && forall i :: 0 <= i < |histories[id].items| ==> histories[id].items[i].historyId == id)
      && (forall a, i, b, j ::
            a in histories && 0 <= i < |histories[a].items| && b in histories && 0 <= j < |histories[b].items|
            && histories[a].items[i].id == histories[b].items[j].id
            ==> a == b && i == j)
    }

    constructor ()
      ensures histories == map[] && Valid()
    {
      histories := map[];
    }

    /** `get_or_create_history`: the stored history, or a new empty one stamped
        `now` that is stored from then on. */
    method GetOrCreateHistory(historyId: Uuid, now: int) returns (history: History)
      requires Valid()
      modifies this
      ensures Valid()
      ensures history.id == historyId
      ensures historyId in old(histories) ==> history == old(histories)[historyId] && histories == old(histories)
      ensures historyId !in old(histories) ==>
        history == History(historyId, now, []) && histories == old(histories)[historyId := history]
    {
      if historyId in histories {
        history := histories[historyId];
      } else {
        history := History(historyId, now, []);
        histories := histories[historyId := history];
      }
    }

    /** Whether some history already holds an item with this id (the item id
        is the primary key of the items table). */
    predicate HasItem(itemId: Uuid)
      reads this
    {
      exists h, i :: h in histories && 0 <= i < |histories[h].items| && histories[h].items[i].id == itemId
    }

    /** `add_history_item`: the item joins the end of its history. Without a
        stored history the row's foreign key is violated, and with an item id
        already stored its primary key is; either way the commit fails and
        nothing is stored. */
    method AddHistoryItem(item: HistoryItem) returns (stored: bool)
      requires Valid()
      modifies this
      ensures Valid()
      ensures stored <==> item.historyId in old(histories) && !old(HasItem(item.id))
      ensures stored ==>
        histories == old(histories)[item.historyId :=
          old(histories)[item.historyId].(items := old(histories)[item.historyId].items + [item])]
      ensures !stored ==> histories == old(histories)
    {
      if item.historyId in histories && !HasItem(item.id) {
        var h := histories[item.historyId];
        histories := histories[item.historyId := h.(items := h.items + [item])];
        stored := true;
      } else {
        stored := false;
      }
    }
  }

  /** `HistoryService`: forwards to its repository. */
  class Service {
    const repo: HistoryRepo

    constructor (repo: HistoryRepo)
      ensures this.repo == repo
    {
      this.repo := repo;
    }

    /** `get_or_create_history_by_id`. */
    method GetOrCreateHistoryById(historyId: Uuid, now: int) returns (history: History)
      requires repo.Valid()
      modifies repo
      ensures repo.Valid()
      ensures history.id == historyId
      ensures historyId in old(repo.histories) ==>
        history == old(repo.histories)[historyId] && repo.histories == old(repo.histories)
      ensures historyId !in old(repo.histories) ==>
        history == History(historyId, now, []) && repo.histories == old(repo.histories)[historyId := history]
    {
      history := repo.GetOrCreateHistory(historyId, now);
    }

    /** `add_history_item`. */
    method AddHistoryItem(item: HistoryItem) returns (stored: bool)
      requires repo.Valid()
      modifies repo
      ensures repo.Valid()
      ensures stored <==> item.historyId in old(repo.histories) && !old(repo.HasItem(item.id))
      ensures stored ==>
        repo.histories == old(repo.histories)[item.historyId :=
          old(repo.histories)[item.historyId].(items := old(repo.histories)[item.historyId].items + [item])]
      ensures !stored ==> repo.histories == old(repo.histories)
    {
      stored := repo.AddHistoryItem(item);
    }

    /** `get_last_n_history_items`: `items[-n:]` of the history fetched or
        created for `historyId`; every item returned belongs to that history. */
    method GetLastNHistoryItems(historyId: Uuid, n: int, now: int) returns (items: seq<HistoryItem>)
      requires repo.Valid()
      modifies repo
      ensures repo.Valid()
      ensures var history := if historyId in old(repo.histories) then old(repo.histories)[historyId]
                             else History(historyId, now, []);
        items == LastN(history.items, n)
      ensures historyId in old(repo.histories) ==> repo.histories == old(repo.histories)
      ensures historyId !in old(repo.histories) ==>
        repo.histories == old(repo.histories)[historyId := History(historyId, now, [])]
      ensures forall i :: 0 <= i < |items| ==> items[i].historyId == historyId
    {
      var history := GetOrCreateHistoryById(historyId, now);
      items := LastN(history.items, n);
    }
  }
}

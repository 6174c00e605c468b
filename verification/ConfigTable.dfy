/** The stored backend configs of classes/sqlite_db.py, and which of them wins for its name. */
module ConfigTable {
  import opened Sequences
  import opened Identities

  datatype Config = Config(protocol: string, hostName: string, servers: string, path: string)

  datatype Row = Row(name: Name, data: Config, lastSelected: real)

  type Table = map<nat, Row>

  datatype Entry = Entry(id: nat, row: Row)

  /** A result of SELECT ... ORDER BY LastSelected DESC; rows with equal stamps may come in any order. */
  ghost predicate IsListing(table: Table, listing: seq<Entry>) {
    Lists(table, table.Keys, listing)
  }

  /** The same for some of the rows. */
  ghost predicate Lists(table: Table, ids: set<nat>, listing: seq<Entry>)
    requires ids <= table.Keys
  {
    && (forall i, j :: 0 <= i < j < |listing| ==> listing[i].id != listing[j].id)
    && (forall i, j :: 0 <= i < j < |listing| ==> listing[i].row.lastSelected >= listing[j].row.lastSelected)
    && (forall i :: 0 <= i < |listing| ==> listing[i].id in ids && table[listing[i].id] == listing[i].row)
    && (forall id :: id in ids ==> Entry(id, table[id]) in listing)
  }

  /** A row no newer than those listed goes last. */
  lemma ListOneMore(table: Table, ids: set<nat>, listing: seq<Entry>, id: nat)
    requires ids <= table.Keys && id in table && id !in ids && Lists(table, ids, listing)
    requires forall i :: 0 <= i < |listing| ==> listing[i].row.lastSelected >= table[id].lastSelected
    ensures Lists(table, ids + {id}, listing + [Entry(id, table[id])])
  {
    var longer := listing + [Entry(id, table[id])];
    forall k | k in ids + {id} ensures Entry(k, table[k]) in longer {
      if k == id {
        assert longer[|listing|] == Entry(k, table[k]);
      } else {
        var i :| 0 <= i < |listing| && listing[i] == Entry(k, table[k]);
        assert longer[i] == Entry(k, table[k]);
      }
    }
  }

  class AsyncDb {
    var table: Table

    constructor ()
      ensures table == map[]
    {
      table := map[];
    }

    method InsertConfig(name: Name, data: Config, now: real) returns (id: nat)
      modifies this
      ensures id !in old(table) && table == old(table)[id := Row(name, data, now)]
    {
      id := 1;
      var ids := table.Keys;
      while ids != {}
        invariant forall k :: k in table && k !in ids ==> k < id
        invariant ids <= table.Keys
        decreases ids
      {
        var k :| k in ids;
        if k >= id { id := k + 1; }
        ids := ids - {k};
      }
      table := table[id := Row(name, data, now)];
    }

    method GetAllConfigs() returns (listing: seq<Entry>)
      ensures IsListing(table, listing)
    {
      var todo := table.Keys;
      listing := [];
      while todo != {}
        invariant todo <= table.Keys && Lists(table, table.Keys - todo, listing)
        invariant forall i, id :: 0 <= i < |listing| && id in todo ==>
                    listing[i].row.lastSelected >= table[id].lastSelected
        decreases todo
      {
        var newest := Newest(table, todo);
        ListOneMore(table, table.Keys - todo, listing, newest);
        assert table.Keys - todo + {newest} == table.Keys - (todo - {newest});
        listing := listing + [Entry(newest, table[newest])];
        todo := todo - {newest};
      }
      assert table.Keys - todo == table.Keys;
    }

    method UpdateLastSelected(id: nat, now: real)
      modifies this
      ensures table == if id in old(table) then old(table)[id := old(table)[id].(lastSelected := now)] else old(table)
    {
      if id in table {
        table := table[id := table[id].(lastSelected := now)];
      }
    }

    method DeleteConfig(id: nat)
      modifies this
      ensures table == old(table) - {id}
    {
      table := table - {id};
    }
  }

  method Newest(table: Table, ids: set<nat>) returns (newest: nat)
    requires ids <= table.Keys && ids != {}
    ensures newest in ids && forall id :: id in ids ==> table[newest].lastSelected >= table[id].lastSelected
  {
    newest :| newest in ids;
    var todo := ids;
    while todo != {}
      invariant todo <= ids && newest in ids
      invariant forall id :: id in ids - todo ==> table[newest].lastSelected >= table[id].lastSelected
      decreases todo
    {
      var id :| id in todo;
      if table[id].lastSelected > table[newest].lastSelected { newest := id; }
      todo := todo - {id};
    }
  }

  // ---- The first row of a name wins ----

  /** Each name with the data of its first row in the listing. */
  function Winners(listing: seq<Entry>): map<Name, Config> {
    if listing == [] then map[]
    else
      var n := |listing| - 1;
      var before := Winners(listing[..n]);
      if listing[n].row.name in before then before
      else before[listing[n].row.name := listing[n].row.data]
  }

  lemma {:induction false} WinnerIsFirst(listing: seq<Entry>, i: nat)
    requires i < |listing|
    requires forall j :: 0 <= j < i ==> listing[j].row.name != listing[i].row.name
    ensures listing[i].row.name in Winners(listing) && Winners(listing)[listing[i].row.name] == listing[i].row.data
    decreases |listing|
  {
    var n := |listing| - 1;
    if i < n {
      WinnerIsFirst(listing[..n], i);
    } else {
      var _ := WinnersAreListed(listing[..n], listing[i].row.name);
    }
  }

  /** A name that wins has a first row. */
  lemma {:induction false} WinnersAreListed(listing: seq<Entry>, name: Name) returns (i: nat)
    ensures name in Winners(listing) ==>
              i < |listing| && listing[i].row.name == name && forall j :: 0 <= j < i ==> listing[j].row.name != name
    decreases |listing|
  {
    i := 0;
    if listing != [] {
      var n := |listing| - 1;
      i := WinnersAreListed(listing[..n], name);
      if name !in Winners(listing[..n]) && listing[n].row.name == name {
        i := n;
        NoWinnerNoRow(listing[..n], name);
      }
    }
  }

  lemma {:induction false} NoWinnerNoRow(listing: seq<Entry>, name: Name)
    requires name !in Winners(listing)
    ensures forall j :: 0 <= j < |listing| ==> listing[j].row.name != name
    decreases |listing|
  {
    if listing != [] {
      NoWinnerNoRow(listing[..|listing| - 1], name);
    }
  }

  // ---- Histories of the table ----

  datatype Change = Insert(id: nat, name: Name, data: Config) | Select(id: nat) | Delete(id: nat)

  datatype Event = At(time: real, change: Change)

  function TableAfter(history: seq<Event>): Table {
    if history == [] then map[]
    else
      var n := |history| - 1;
      var t := TableAfter(history[..n]);
      match history[n].change
      case Insert(id, name, data) => t[id := Row(name, data, history[n].time)]
      case Select(id) => if id in t then t[id := t[id].(lastSelected := history[n].time)] else t
      case Delete(id) => t - {id}
  }

  /** Time moves on between changes, and the database hands out unused ids only. */
  ghost predicate Plausible(history: seq<Event>) {
    && (forall i, j :: 0 <= i < j < |history| ==> history[i].time < history[j].time)
    && (forall i :: 0 <= i < |history| && history[i].change.Insert? ==>
          history[i].change.id !in TableAfter(history[..i]))
  }

  predicate Touches(change: Change, id: nat) {
    !change.Delete? && change.id == id
  }

  /** Event i is the last one that inserted or selected id. */
  ghost predicate LastTouch(history: seq<Event>, id: nat, i: nat) {
    && i < |history| && Touches(history[i].change, id)
    && forall j :: i < j < |history| ==> !Touches(history[j].change, id)
  }

  /** Every stored stamp is the time of the row's last insertion or selection. */
  lemma {:induction false} StampIsLastTouch(history: seq<Event>, id: nat) returns (i: nat)
    requires id in TableAfter(history)
    ensures LastTouch(history, id, i) && TableAfter(history)[id].lastSelected == history[i].time
    decreases |history|
  {
    var n := |history| - 1;
    if Touches(history[n].change, id) {
      i := n;
    } else {
      i := StampIsLastTouch(history[..n], id);
    }
  }

  ghost predicate Survives(history: seq<Event>, name: Name, id: nat) {
    id in TableAfter(history) && TableAfter(history)[id].name == name
  }

  /** Event i put the row in, and no later event took it out. */
  ghost predicate Inserted(history: seq<Event>, id: nat, i: nat) {
    && i < |history| && history[i].change.Insert? && history[i].change.id == id
    && forall j :: i < j < |history| ==> history[j].change != Delete(id)
  }

  /** A row is in the table exactly when it was inserted and not deleted since, and it is as it was inserted. */
  lemma {:induction false} StoredIffInserted(history: seq<Event>, id: nat)
    requires Plausible(history)
    ensures id in TableAfter(history) <==> exists i: nat :: Inserted(history, id, i)
    ensures forall i: nat :: Inserted(history, id, i) ==>
              id in TableAfter(history)
              && TableAfter(history)[id].name == history[i].change.name
              && TableAfter(history)[id].data == history[i].change.data
    decreases |history|
  {
    if history != [] {
      var n := |history| - 1;
      PrefixIsPlausible(history, n);
      StoredIffInserted(history[..n], id);
      forall i: nat | i < n
        ensures Inserted(history, id, i) <==> Inserted(history[..n], id, i) && history[n].change != Delete(id)
      {
        InsertedNext(history, id, i);
      }
      if history[n].change.Insert? && history[n].change.id == id {
        assert Inserted(history, id, n);
        assert id !in TableAfter(history[..n]);
      }
    }
  }

  lemma PrefixIsPlausible(history: seq<Event>, n: nat)
    requires Plausible(history) && n <= |history|
    ensures Plausible(history[..n])
  {
    assert forall i :: 0 <= i < n ==> history[..n][..i] == history[..i];
  }

  lemma InsertedNext(history: seq<Event>, id: nat, i: nat)
    requires history != [] && i < |history| - 1
    ensures var n := |history| - 1;
            Inserted(history, id, i) <==> Inserted(history[..n], id, i) && history[n].change != Delete(id)
  {
  }

  /** Among the surviving rows of that name, id was inserted or selected last, by event i. */
  ghost predicate LastOfName(history: seq<Event>, name: Name, id: nat, i: nat) {
    && Survives(history, name, id) && LastTouch(history, id, i)
    && forall other: nat, j: nat :: Survives(history, name, other) && LastTouch(history, other, j) ==> j <= i
  }

  /** The first row of a name is the row of that name that was touched last. */
  lemma FirstIsLastTouched(history: seq<Event>, listing: seq<Entry>, name: Name) returns (id: nat, i: nat)
    requires Plausible(history) && IsListing(TableAfter(history), listing) && name in Winners(listing)
    ensures LastOfName(history, name, id, i) && Winners(listing)[name] == TableAfter(history)[id].data
  {
    var table := TableAfter(history);
    var first := WinnersAreListed(listing, name);
    var e := listing[first];
    WinnerIsFirst(listing, first);
    hide Winners, TableAfter;
    id := e.id;
    i := StampIsLastTouch(history, id);
    forall other: nat, j: nat | Survives(history, name, other) && LastTouch(history, other, j) ensures j <= i {
      assert Entry(other, table[other]) in listing;
      assert e.row.lastSelected >= table[other].lastSelected;
      var k := StampIsLastTouch(history, other);
      assert k == j;
      LaterStamp(history, i, j);
    }
  }

  /** Stamps increase along a history, so comparing stamps is comparing events. */
  lemma LaterStamp(history: seq<Event>, i: nat, j: nat)
    requires Plausible(history) && i < |history| && j < |history| && history[i].time >= history[j].time
    ensures j <= i
  {
  }

  /**
   * Last config in wins: after any history, a name has a winner exactly when a row of that
   * name survives, and the winner is the surviving row of that name that was inserted or
   * selected last.
   */
  lemma LastConfigWins(history: seq<Event>, listing: seq<Entry>, name: Name)
    requires Plausible(history) && IsListing(TableAfter(history), listing)
    ensures name in Winners(listing) <==> exists id: nat :: Survives(history, name, id)
    ensures name in Winners(listing) ==>
              exists id: nat, i: nat ::
                LastOfName(history, name, id, i) && Winners(listing)[name] == TableAfter(history)[id].data
  {
    hide Winners, TableAfter, Plausible;
    forall id: nat | Survives(history, name, id) ensures name in Winners(listing) {
      assert Entry(id, TableAfter(history)[id]) in listing;
      if name !in Winners(listing) {
        NoWinnerNoRow(listing, name);
      }
    }
    if name in Winners(listing) {
      var id, i := FirstIsLastTouched(history, listing, name);
    }
  }

  /** Only one row can be the last of its name, so the winner is determined. */
  lemma LastOfNameIsUnique(history: seq<Event>, name: Name, id: nat, i: nat, id': nat, i': nat)
    requires LastOfName(history, name, id, i) && LastOfName(history, name, id', i')
    ensures id == id' && i == i'
  {
  }
}

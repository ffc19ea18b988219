/** The durable audit of reset requests: the repository as it works on its list of records, and the same
    operations on a book that maps each idempotency key to its record. */
module ResetAudit {
  import opened Domain

  type Key = string

  datatype Outcome = Pending | Succeeded | Failed | Unknown

  datatype Audit = Audit(key: Key, account: string, requestedAt: Instant, outcome: Outcome, finishedAt: Instant)

  type Book = map<Key, Audit>

  /** What the environment decides during one operation: whether the file can be read, the clock that retention
      reads, how the retention rewrite ends and whether its error says that a file does not exist, and how the
      operation's own write ends. */
  datatype Access = Access(readable: bool, now: Instant, trim: Write, trimMissing: bool, write: Write)

  datatype Loaded<T> = Loaded(disk: T, found: Found<T>)
  datatype Found<T> = Records(items: T) | Unreadable | Missing

  datatype Verdict = Done | Conflict | Failure

  // ----- the list -----

  /** A record without a request time is never old. */
  predicate Expired(a: Audit, cutoff: Instant) {
    a.requestedAt != ZERO_TIME && a.requestedAt < cutoff
  }

  function Kept(items: seq<Audit>, cutoff: Instant): seq<Audit> {
    if items == [] then []
    else
      var last := items[|items| - 1];
      Kept(items[..|items| - 1], cutoff) + (if Expired(last, cutoff) then [] else [last])
  }

  predicate HasKey(items: seq<Audit>, key: Key) {
    exists i :: 0 <= i < |items| && items[i].key == key
  }

  ghost predicate UniqueKeys(items: seq<Audit>) {
    forall i, j :: 0 <= i < j < |items| ==> items[i].key != items[j].key
  }

  function WithOutcomeKnown(a: Audit, now: Instant): Audit {
    if a.outcome.Pending? then a.(outcome := Unknown, finishedAt := now) else a
  }

  // ----- the book -----

  ghost function Index(items: seq<Audit>): Book {
    map key | key in KeysOf(items) :: Lookup(items, key)
  }

  function KeysOf(items: seq<Audit>): set<Key> {
    set a | a in items :: a.key
  }

  function Lookup(items: seq<Audit>, key: Key): Audit
    requires key in KeysOf(items)
  {
    if items[0].key == key then items[0] else Lookup(items[1..], key)
  }

  function Trim(book: Book, cutoff: Instant): Book {
    map key | key in book && !Expired(book[key], cutoff) :: book[key]
  }

  function Loading(book: Book, retention: int, env: Access): Loaded<Book> {
    if !env.readable then Loaded(book, Unreadable)
    else if retention <= 0 || Trim(book, env.now - retention) == book then Loaded(book, Records(book))
    else
      var kept := Trim(book, env.now - retention);
      if env.trim.Ok? then Loaded(kept, Records(kept))
      else Loaded(Written(book, kept, env.trim), if env.trimMissing then Missing else Unreadable)
  }

  function Find(book: Book, retention: int, key: Key, env: Access): Found<Option<Audit>> {
    match Loading(book, retention, env).found
    case Records(items) => Records(if key in items then Some(items[key]) else None)
    case _ => Unreadable
  }

  /** The new book, the keys whose record was dropped, and what the caller is told. */
  datatype Change = Change(book: Book, lost: set<Key>, verdict: Verdict)

  function Append(book: Book, retention: int, audit: Audit, env: Access): Change {
    var l := Loading(book, retention, env);
    var trimmed := book.Keys - l.disk.Keys;
    match l.found
    case Unreadable => Change(l.disk, trimmed, Failure)
    case Records(items) =>
      if audit.key in items then Change(l.disk, trimmed, Conflict)
      else Change(Written(l.disk, items[audit.key := audit], env.write), trimmed, if env.write.Ok? then Done else Failure)
    case Missing =>
      Change(Written(l.disk, map[audit.key := audit], env.write), if env.write.Lost? then trimmed else book.Keys,
             if env.write.Ok? then Done else Failure)
  }

  function Replace(book: Book, retention: int, audit: Audit, env: Access): Change {
    var l := Loading(book, retention, env);
    var trimmed := book.Keys - l.disk.Keys;
    if l.found.Records? && audit.key in l.found.items then
      Change(Written(l.disk, l.found.items[audit.key := audit], env.write), trimmed,
             if env.write.Ok? then Done else Failure)
    else Change(l.disk, trimmed, Failure)
  }

  function Delete(book: Book, retention: int, cutoff: Instant, env: Access): Change {
    var l := Loading(book, retention, env);
    if !l.found.Records? then Change(l.disk, book.Keys - l.disk.Keys, Failure)
    else
      var kept := Trim(l.found.items, cutoff);
      if kept == l.found.items then Change(l.disk, book.Keys - l.disk.Keys, Done)
      else
        var after := Written(l.disk, kept, env.write);
        Change(after, book.Keys - after.Keys, if env.write.Ok? then Done else Failure)
  }

  function Settle(book: Book, now: Instant): Book {
    map key | key in book :: WithOutcomeKnown(book[key], now)
  }

  function Recover(book: Book, retention: int, now: Instant, env: Access): Change {
    var l := Loading(book, retention, env);
    var trimmed := book.Keys - l.disk.Keys;
    if !l.found.Records? then Change(l.disk, trimmed, Failure)
    else if Settle(l.found.items, now) == l.found.items then Change(l.disk, trimmed, Done)
    else Change(Written(l.disk, Settle(l.found.items, now), env.write), trimmed, if env.write.Ok? then Done else Failure)
  }

  function Clear(book: Book, env: Access): Change {
    var after := Written(book, map[], env.write);
    Change(after, book.Keys - after.Keys, if env.write.Ok? then Done else Failure)
  }

  /** Appending drops a record that retention still keeps exactly when the retention rewrite failed with a
      not-exist error, which is taken for an empty history, and the append itself reaches the disk. */
  lemma AppendDropsLiveRecordsExactlyWhen(book: Book, retention: int, audit: Audit, env: Access, k: Key)
    requires k in book && (retention <= 0 || !Expired(book[k], env.now - retention))
    ensures k in Append(book, retention, audit, env).lost <==>
              Loading(book, retention, env).found.Missing? && !env.write.Lost?
    ensures Loading(book, retention, env).found.Missing? && !env.write.Lost? ==>
              Append(book, retention, audit, env).book == map[audit.key := audit]
  {
    if retention > 0 { assert k in Trim(book, env.now - retention); }
  }

  // ----- the list refines the book -----

  lemma {:induction false} LookupIs(items: seq<Audit>, key: Key, i: nat)
    requires UniqueKeys(items) && i < |items| && items[i].key == key
    ensures key in KeysOf(items) && Lookup(items, key) == items[i]
  {
    assert items[i] in items;
    if items[0].key == key {
      assert i == 0;
    } else {
      assert items[i] == items[1..][i - 1];
      LookupIs(items[1..], key, i - 1);
    }
  }

  lemma LookupFinds(items: seq<Audit>, key: Key) returns (i: nat)
    requires UniqueKeys(items) && key in KeysOf(items)
    ensures i < |items| && items[i].key == key && Lookup(items, key) == items[i]
  {
    var a :| a in items && a.key == key;
    i :| 0 <= i < |items| && items[i] == a;
    LookupIs(items, key, i);
  }

  /** A book is the index of a list exactly when it has the list's records, each under its key. */
  lemma IndexIs(items: seq<Audit>, book: Book)
    requires UniqueKeys(items)
    requires forall i :: 0 <= i < |items| ==> items[i].key in book && book[items[i].key] == items[i]
    requires forall key :: key in book ==> book[key] in items && book[key].key == key
    ensures Index(items) == book
  {
    forall key ensures key in Index(items) <==> key in book {
      if key in book { assert book[key] in items; }
      if key in KeysOf(items) { var i := LookupFinds(items, key); }
    }
    forall key | key in book ensures Index(items)[key] == book[key] { var i := LookupFinds(items, key); }
  }

  lemma IndexHas(items: seq<Audit>)
    requires UniqueKeys(items)
    ensures forall i :: 0 <= i < |items| ==> items[i].key in Index(items) && Index(items)[items[i].key] == items[i]
    ensures forall key :: key in Index(items) ==> Index(items)[key] in items && Index(items)[key].key == key
  {
    forall i | 0 <= i < |items| ensures items[i].key in Index(items) && Index(items)[items[i].key] == items[i] {
      LookupIs(items, items[i].key, i);
    }
    forall key | key in Index(items) ensures Index(items)[key] in items && Index(items)[key].key == key {
      var i := LookupFinds(items, key);
    }
  }

  lemma {:induction false} KeptMembers(items: seq<Audit>, cutoff: Instant)
    ensures forall a :: a in Kept(items, cutoff) <==> a in items && !Expired(a, cutoff)
  {
    if items != [] {
      KeptMembers(items[..|items| - 1], cutoff);
      assert items == items[..|items| - 1] + [items[|items| - 1]];
    }
  }

  lemma {:induction false} KeptIsUnique(items: seq<Audit>, cutoff: Instant)
    requires UniqueKeys(items)
    ensures UniqueKeys(Kept(items, cutoff))
  {
    if items != [] {
      var init := items[..|items| - 1];
      KeptIsUnique(init, cutoff);
      KeptMembers(init, cutoff);
      forall a | a in Kept(init, cutoff) ensures a.key != items[|items| - 1].key {
        var i :| 0 <= i < |init| && init[i] == a;
        assert items[i] == a;
      }
      OneMoreKey(Kept(init, cutoff), items[|items| - 1]);
    }
  }

  lemma OneMoreKey(items: seq<Audit>, last: Audit)
    requires UniqueKeys(items) && forall a :: a in items ==> a.key != last.key
    ensures UniqueKeys(items + [last])
  {
    forall i, j | 0 <= i < j < |items + [last]| ensures (items + [last])[i].key != (items + [last])[j].key {
      assert items[i] in items;
    }
  }

  lemma {:induction false} KeptIsShorter(items: seq<Audit>, cutoff: Instant)
    ensures |Kept(items, cutoff)| <= |items|
    ensures Kept(items, cutoff) == items <==> |Kept(items, cutoff)| == |items|
  {
    if items != [] {
      KeptIsShorter(items[..|items| - 1], cutoff);
      assert items == items[..|items| - 1] + [items[|items| - 1]];
    }
  }

  lemma KeptRefinesTrim(items: seq<Audit>, cutoff: Instant)
    requires UniqueKeys(items)
    ensures UniqueKeys(Kept(items, cutoff)) && Index(Kept(items, cutoff)) == Trim(Index(items), cutoff)
    ensures Kept(items, cutoff) == items <==> Trim(Index(items), cutoff) == Index(items)
  {
    KeptMembers(items, cutoff);
    KeptIsUnique(items, cutoff);
    IndexHas(items);
    var kept := Kept(items, cutoff);
    forall i | 0 <= i < |kept|
      ensures kept[i].key in Trim(Index(items), cutoff) && Trim(Index(items), cutoff)[kept[i].key] == kept[i]
    {
      assert kept[i] in items;
    }
    IndexIs(kept, Trim(Index(items), cutoff));
    if Trim(Index(items), cutoff) == Index(items) {
      forall a | a in items ensures !Expired(a, cutoff) { assert a.key in Trim(Index(items), cutoff); }
      NothingExpired(items, cutoff);
    }
  }

  lemma {:induction false} NothingExpired(items: seq<Audit>, cutoff: Instant)
    requires forall a :: a in items ==> !Expired(a, cutoff)
    ensures Kept(items, cutoff) == items
  {
    if items != [] {
      assert items == items[..|items| - 1] + [items[|items| - 1]];
      NothingExpired(items[..|items| - 1], cutoff);
    }
  }

  lemma AppendRefines(items: seq<Audit>, audit: Audit)
    requires UniqueKeys(items) && !HasKey(items, audit.key)
    ensures UniqueKeys(items + [audit]) && Index(items + [audit]) == Index(items)[audit.key := audit]
  {
    IndexHas(items);
    IndexIs(items + [audit], Index(items)[audit.key := audit]);
  }

  lemma ReplaceRefines(items: seq<Audit>, i: nat, audit: Audit)
    requires UniqueKeys(items) && i < |items| && items[i].key == audit.key
    ensures UniqueKeys(items[i := audit]) && Index(items[i := audit]) == Index(items)[audit.key := audit]
    ensures audit.key in Index(items)
  {
    var after := items[i := audit];
    IndexHas(items);
    forall key | key in Index(items)[audit.key := audit] && key != audit.key ensures Index(items)[key] in after {
      var j :| 0 <= j < |items| && items[j] == Index(items)[key];
      assert after[j] == items[j];
    }
    assert after[i] == audit;
    IndexIs(after, Index(items)[audit.key := audit]);
  }

  lemma HasKeyRefines(items: seq<Audit>, key: Key)
    requires UniqueKeys(items)
    ensures HasKey(items, key) <==> key in Index(items)
  {
    IndexHas(items);
    if key in Index(items) { var i := LookupFinds(items, key); }
  }

  /** Every record of the list with its outcome made known, in place. */
  ghost predicate SettledAt(before: seq<Audit>, after: seq<Audit>, now: Instant, n: nat) {
    && |after| == |before| && n <= |before|
    && forall i :: 0 <= i < |before| ==> after[i] == if i < n then WithOutcomeKnown(before[i], now) else before[i]
  }

  lemma SettledKeysAreUnique(before: seq<Audit>, after: seq<Audit>, now: Instant)
    requires UniqueKeys(before) && SettledAt(before, after, now, |before|)
    ensures UniqueKeys(after)
  {
    forall i, j | 0 <= i < j < |after| ensures after[i].key != after[j].key {
      assert after[i] == WithOutcomeKnown(before[i], now) && after[j] == WithOutcomeKnown(before[j], now);
    }
  }

  lemma SettledRecordIsFound(before: seq<Audit>, after: seq<Audit>, now: Instant, key: Key)
    requires UniqueKeys(before) && SettledAt(before, after, now, |before|) && key in Index(before)
    ensures WithOutcomeKnown(Index(before)[key], now) in after && Index(before)[key].key == key
  {
    var i := LookupFinds(before, key);
    assert after[i] == WithOutcomeKnown(before[i], now);
  }

  lemma SettleRefines(before: seq<Audit>, after: seq<Audit>, now: Instant)
    requires UniqueKeys(before) && SettledAt(before, after, now, |before|)
    ensures UniqueKeys(after) && Index(after) == Settle(Index(before), now)
  {
    SettledKeysAreUnique(before, after, now);
    var book := Settle(Index(before), now);
    forall i | 0 <= i < |after| ensures after[i].key in book && book[after[i].key] == after[i] {
      LookupIs(before, before[i].key, i);
    }
    forall key | key in book ensures book[key] in after && book[key].key == key {
      SettledRecordIsFound(before, after, now, key);
    }
    IndexIs(after, book);
  }

  lemma SettlingChanges(items: seq<Audit>, now: Instant)
    requires UniqueKeys(items)
    ensures Settle(Index(items), now) == Index(items) <==>
              forall i :: 0 <= i < |items| ==> !items[i].outcome.Pending?
  {
    IndexHas(items);
    if Settle(Index(items), now) == Index(items) {
      forall i | 0 <= i < |items| ensures !items[i].outcome.Pending? {
        assert Settle(Index(items), now)[items[i].key] == items[i];
      }
    } else {
      var key :| key in Index(items) && Settle(Index(items), now)[key] != Index(items)[key];
      var i := LookupFinds(items, key);
    }
  }

  function LoadingList(items: seq<Audit>, retention: int, env: Access): Loaded<seq<Audit>> {
    if !env.readable then Loaded(items, Unreadable)
    else if retention <= 0 || Kept(items, env.now - retention) == items then Loaded(items, Records(items))
    else
      var kept := Kept(items, env.now - retention);
      if env.trim.Ok? then Loaded(kept, Records(kept))
      else Loaded(Written(items, kept, env.trim), if env.trimMissing then Missing else Unreadable)
  }

  /** Loading the list is loading the book it stands for. */
  lemma LoadingRefines(items: seq<Audit>, retention: int, env: Access)
    requires UniqueKeys(items)
    ensures var l := LoadingList(items, retention, env);
            && UniqueKeys(l.disk) && (l.found.Records? ==> UniqueKeys(l.found.items))
            && Loading(Index(items), retention, env) == Loaded(Index(l.disk), FoundIndex(l.found))
  {
    KeptRefinesTrim(items, env.now - retention);
  }

  // ----- the repository -----

  method DropOld(items: seq<Audit>, cutoff: Instant) returns (kept: seq<Audit>, removed: bool)
    ensures kept == Kept(items, cutoff) && (removed <==> kept != items)
  {
    kept, removed := [], false;
    for k := 0 to |items|
      invariant kept == Kept(items[..k], cutoff) && (removed <==> |kept| != k) && |kept| <= k
    {
      assert items[..k + 1][..k] == items[..k];
      if items[k].requestedAt != ZERO_TIME && items[k].requestedAt < cutoff {
        removed := true;
        continue;
      }
      kept := kept + [items[k]];
    }
    assert items[..|items|] == items;
    KeptIsShorter(items, cutoff);
  }

  class Repository {
    const retention: int
    var records: seq<Audit>

    constructor (retention: int)
      ensures records == [] && this.retention == retention && Valid() && Contents() == map[]
    {
      this.retention := retention;
      records := [];
    }

    ghost predicate Valid()
      reads this
    {
      UniqueKeys(records)
    }

    ghost function Contents(): Book
      reads this
    {
      Index(records)
    }

    method LoadRecords(env: Access) returns (found: Found<seq<Audit>>)
      modifies this
      ensures Loaded(records, found) == LoadingList(old(records), retention, env)
    {
      if !env.readable {
        return Unreadable;
      }
      if retention <= 0 {
        return Records(records);
      }
      var kept, removed := DropOld(records, env.now - retention);
      if !removed {
        return Records(records);
      }
      if env.trim != Lost { records := kept; }
      if env.trim != Ok {
        return if env.trimMissing then Missing else Unreadable;
      }
      return Records(kept);
    }

    /** The durable list, after dropping what retention no longer keeps. */
    method Load(env: Access) returns (found: Found<seq<Audit>>)
      requires Valid()
      modifies this
      ensures Valid() && Contents() == Loading(old(Contents()), retention, env).disk
      ensures found.Records? ==> UniqueKeys(found.items)
      ensures FoundIndex(found) == Loading(old(Contents()), retention, env).found
    {
      LoadingRefines(records, retention, env);
      found := LoadRecords(env);
    }

    method Write(after: seq<Audit>, write: Write) returns (ok: bool)
      modifies this
      ensures records == Written(old(records), after, write) && ok == write.Ok?
    {
      if write != Lost { records := after; }
      return write == Ok;
    }

    method IndexOf(items: seq<Audit>, key: Key) returns (index: int)
      ensures 0 <= index ==> index < |items| && items[index].key == key
      ensures index < 0 <==> !HasKey(items, key)
    {
      for i := 0 to |items|
        invariant forall j :: 0 <= j < i ==> items[j].key != key
      {
        if items[i].key == key {
          return i;
        }
      }
      return -1;
    }

    method FindByKey(key: Key, env: Access) returns (found: Found<Option<Audit>>)
      requires Valid()
      modifies this
      ensures Valid() && Contents() == Loading(old(Contents()), retention, env).disk
      ensures found == Find(old(Contents()), retention, key, env)
    {
      var loaded := Load(env);
      if !loaded.Records? {
        return Unreadable;
      }
      var index := IndexOf(loaded.items, key);
      HasKeyRefines(loaded.items, key);
      if index < 0 {
        return Records(None);
      }
      LookupIs(loaded.items, key, index);
      return Records(Some(loaded.items[index]));
    }

    method AppendPending(audit: Audit, env: Access) returns (verdict: Verdict)
      requires Valid()
      modifies this
      ensures Valid()
      ensures var c := Append(old(Contents()), retention, audit, env);
              Contents() == c.book && verdict == c.verdict
    {
      var loaded := Load(env);
      if loaded.Unreadable? {
        return Failure;
      }
      var items := if loaded.Records? then loaded.items else [];
      var index := IndexOf(items, audit.key);
      HasKeyRefines(items, audit.key);
      if index >= 0 {
        return Conflict;
      }
      AppendRefines(items, audit);
      NothingIndexed();
      var ok := Write(items + [audit], env.write);
      return if ok then Done else Failure;
    }

    method ReplaceRecord(audit: Audit, env: Access) returns (verdict: Verdict)
      requires Valid()
      modifies this
      ensures Valid()
      ensures var c := Replace(old(Contents()), retention, audit, env);
              Contents() == c.book && verdict == c.verdict
    {
      var loaded := Load(env);
      if !loaded.Records? {
        return Failure;
      }
      var index := IndexOf(loaded.items, audit.key);
      HasKeyRefines(loaded.items, audit.key);
      if index < 0 {
        return Failure;
      }
      ReplaceRefines(loaded.items, index, audit);
      var ok := Write(loaded.items[index := audit], env.write);
      return if ok then Done else Failure;
    }

    method DeleteBefore(cutoff: Instant, env: Access) returns (verdict: Verdict)
      requires Valid()
      modifies this
      ensures Valid()
      ensures var c := Delete(old(Contents()), retention, cutoff, env);
              Contents() == c.book && verdict == c.verdict
    {
      var loaded := Load(env);
      if !loaded.Records? {
        return Failure;
      }
      var kept, removed := DropOld(loaded.items, cutoff);
      KeptRefinesTrim(loaded.items, cutoff);
      if !removed {
        return Done;
      }
      var ok := Write(kept, env.write);
      return if ok then Done else Failure;
    }

    method RecoverPending(now: Instant, env: Access) returns (verdict: Verdict)
      requires Valid()
      modifies this
      ensures Valid()
      ensures var c := Recover(old(Contents()), retention, now, env);
              Contents() == c.book && verdict == c.verdict
    {
      var loaded := Load(env);
      if !loaded.Records? {
        return Failure;
      }
      var items, changed := loaded.items, false;
      for index := 0 to |items|
        invariant SettledAt(loaded.items, items, now, index)
        invariant changed <==> exists i :: 0 <= i < index && loaded.items[i].outcome.Pending?
      {
        if items[index].outcome != Pending {
          continue;
        }
        items := items[index := items[index].(outcome := Unknown, finishedAt := now)];
        changed := true;
      }
      SettlingChanges(loaded.items, now);
      if !changed {
        return Done;
      }
      SettleRefines(loaded.items, items, now);
      var ok := Write(items, env.write);
      return if ok then Done else Failure;
    }

    method ClearAll(env: Access) returns (verdict: Verdict)
      requires Valid()
      modifies this
      ensures Valid()
      ensures var c := Clear(old(Contents()), env);
              Contents() == c.book && verdict == c.verdict
    {
      NothingIndexed();
      var ok := Write([], env.write);
      return if ok then Done else Failure;
    }
  }

  lemma NothingIndexed()
    ensures Index([]) == map[]
  {
  }

  ghost function FoundIndex(found: Found<seq<Audit>>): Found<Book> {
    match found
    case Records(items) => Records(Index(items))
    case Unreadable => Unreadable
    case Missing => Missing
  }
}

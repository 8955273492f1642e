/** What the operations on the history do, said in terms of the list and the directory alone, and how long an item
    stays listed. */
module HistoryMeaning {
  import opened Prelude
  import opened History

  /** The row an addition is listed as. */
  function RowFor(n: NewItem): (row: Item)
  {
    match n.content
    case Text(text) => Item(n.id, n.ts, TextKind(text), n.source)
    case Image(_) => Item(n.id, n.ts, ImageKind(ImageFile(n.id)), n.source)
  }

  predicate IsListed(items: seq<Item>, id: Id)
  {
    exists i :: 0 <= i < |items| && items[i].id == id
  }

  /** The addition is new and its files get written. */
  predicate Lands(items: seq<Item>, n: NewItem, env: AddEnv)
  {
    !IsListed(items, n.id) && (n.content.Image? ==> env.image.Written?) && env.meta.Written?
  }

  /** The oldest item has to make room, and its image cannot be deleted. */
  predicate EvictionFails(w: World, env: AddEnv)
    requires w.items.Some?
  {
    var items := w.items.value;
    |items| == 50 && items[0].kind.ImageKind? && items[0].kind.file in w.dir.images && !env.evict
  }

  lemma {:induction false} ListedIds(items: seq<Item>, id: Id)
    ensures id in Ids(items) <==> IsListed(items, id)
  {
    if IsListed(items, id) {
      var i :| 0 <= i < |items| && items[i].id == id;
      assert items[i] in items;
    }
  }

  /** What an addition does to the list: nothing unless it is new and written; else the new row comes last, after all
      earlier ones, of which the first goes exactly when there were already 50. A listed id is answered with success,
      and so is a new one whose files are written, unless the evicted image cannot be deleted. */
  lemma {:induction false} AddListsExactly(w: World, n: NewItem, env: AddEnv)
    requires Inv(w) && w.items.Some?
    ensures var items, r := w.items.value, Add(w, n, env);
            && r.world.items == Some(if !Lands(items, n, env) then items
                                     else if |items| < 50 then items + [RowFor(n)] else items[1..] + [RowFor(n)])
            && Listed(r.world.dir.meta) == r.world.items.value
            && r.world.added == (if Lands(items, n, env) then w.added[n.id := n] else w.added)
            && r.status == if IsListed(items, n.id) || (Lands(items, n, env) && !EvictionFails(w, env)) then Ok
                           else IoError
  {
    ListedIsValid(w.dir.meta);
    ListedIds(w.items.value, n.id);
    AddKeepsInv(w, n, env);
    assert |w.items.value| == 50 ==> w.items.value[0] in w.items.value;
    if w.items.value != [] && !IsListed(w.items.value, n.id) {
      NewImageIsNotEvicted(w, n);
    }
  }

  /** The image written for a new item is not the one that is evicted. */
  lemma {:induction false} NewImageIsNotEvicted(w: World, n: NewItem)
    requires Inv(w) && w.items.Some? && w.items.value != [] && !IsListed(w.items.value, n.id)
    ensures w.items.value[0].kind.ImageKind? ==> w.items.value[0].kind.file != ImageFile(n.id)
  {
    ListedIsValid(w.dir.meta);
    assert w.items.value[0] in w.items.value;
  }

  /** What an addition does to the image directory: on success an image's bytes are there under its own name and the
      image of an evicted item is gone; a failed write leaves at most a temporary file, and an image whose metadata
      could not be written unless it is rolled back. Nothing else changes. */
  lemma {:induction false} AddStoresExactly(w: World, n: NewItem, env: AddEnv)
    requires Inv(w) && w.items.Some?
    ensures var items, images, r := w.items.value, w.dir.images, Add(w, n, env);
            var stored := if n.content.Image? then images[ImageFile(n.id) := n.content.bytes] else images;
            r.world.dir.images ==
              if IsListed(items, n.id) then images
              else if n.content.Image? && env.image.Failed? then
                (if env.image.temp.Some? then images[OtherFile(env.image.temp.value) := env.image.partial] else images)
              else if env.meta.Failed? then
                (if n.content.Image? && env.rollback then stored - {ImageFile(n.id)} else stored)
              else if |items| == 50 && items[0].kind.ImageKind? && !EvictionFails(w, env) then
                stored - {items[0].kind.file}
              else stored
  {
    ListedIsValid(w.dir.meta);
    ListedIds(w.items.value, n.id);
    if w.items.value != [] && !IsListed(w.items.value, n.id) {
      NewImageIsNotEvicted(w, n);
    }
  }

  /** Clearing empties the list for good, unless the metadata cannot be written; on success none of the listed images
      is left, and no other file is touched. */
  lemma {:induction false} ClearExactly(w: World, meta: Write, stuck: set<FileName>)
    requires w.items.Some?
    ensures var r := Clear(w, meta, stuck);
            && (meta.Failed? ==> r == Out(w, IoError))
            && (meta.Written? ==>
                  && r.world.items == Some([]) && Listed(r.world.dir.meta) == [] && r.world.added == w.added
                  && (forall f :: f in r.world.dir.images ==>
                        f in w.dir.images && r.world.dir.images[f] == w.dir.images[f])
                  && (forall f :: f in w.dir.images && f !in ImageFiles(w.items.value) ==> f in r.world.dir.images)
                  && (r.status.Ok? ==> forall f :: f in ImageFiles(w.items.value) ==> f !in r.world.dir.images)
                  && ((forall f :: f in ImageFiles(w.items.value) && f in w.dir.images ==> f !in stuck) ==>
                        r.status.Ok?))
  {
    FilesAreImages(w.items.value);
    RemoveMeaning(w.dir.images, {}, FilesInOrder(w.items.value), stuck);
    if forall f :: f in ImageFiles(w.items.value) && f in w.dir.images ==> f !in stuck {
      NothingStuck(w.dir.images, FilesInOrder(w.items.value), stuck);
    }
  }

  lemma {:induction false} FilesAreImages(items: seq<Item>)
    ensures forall f :: f in FilesInOrder(items) <==> f in ImageFiles(items)
    decreases |items|
  {
    if items != [] {
      FilesAreImages(items[1..]);
      assert items == [items[0]] + items[1..];
      var first := if items[0].kind.ImageKind? then {items[0].kind.file} else {};
      assert ImageFiles(items) == ImageFiles(items[1..]) + first;
    }
  }

  lemma {:induction false} NothingStuck(images: map<FileName, Bytes>, order: seq<FileName>, stuck: set<FileName>)
    requires forall f :: f in order && f in images ==> f !in stuck
    ensures Remove(images, {}, order, stuck).status.Ok?
    decreases |order|
  {
    if order != [] {
      assert forall f :: f in order[1..] ==> f in order;
      NothingStuck(images - {order[0]}, order[1..], stuck);
    }
  }

  /** Promoting changes the source of one deferred row, and only if asked to and the metadata can be written; an
      unknown id is refused and changes nothing. */
  lemma {:induction false} SetSourceExactly(w: World, id: Id, source: Source, meta: Write)
    requires Inv(w) && w.items.Some?
    ensures var items, r := w.items.value, SetSource(w, id, source, meta);
            && r.world == w.(items := r.world.items, dir := w.dir.(meta := r.world.dir.meta))
            && Listed(r.world.dir.meta) == r.world.items.value && |r.world.items.value| == |items|
            && (!IsListed(items, id) ==> r == Out(w, UnknownItem))
            && (forall i :: 0 <= i < |items| ==>
                  var moves := items[i].id == id && items[i].source.RemoteDeferred? && source.Remote?;
                  && r.world.items.value[i]
                     == (if moves && meta.Written? then items[i].(source := Remote) else items[i])
                  && (items[i].id == id ==> r.status == if moves && meta.Failed? then IoError else Ok))
  {
    var items := w.items.value;
    ListedIsValid(w.dir.meta);
    SetSourceKeepsInv(w, id, source, meta);
    var k := Position(items, id);
    if k < |items| {
      assert items[k].id == id;
      assert forall i :: 0 <= i < |items| && items[i].id == id ==> i == k;
    }
  }

  /** Whatever cannot be deleted is listed. */
  predicate OnlyListedStuck(w: World, env: OpenEnv)
  {
    forall f :: f in env.listing && f in w.dir.images && f in env.stuck ==> f in ImageFiles(Listed(w.dir.meta))
  }

  /** Opening loads the durable list; it fails only if the file cannot be read or a file that is not listed cannot be
      deleted, and never loses a listed image. */
  lemma {:induction false} OpenExactly(w: World, env: OpenEnv)
    requires Inv(w)
    ensures var r, items := Open(w, env), Listed(w.dir.meta);
            && r.world.dir.meta == w.dir.meta && r.world.added == w.added
            && (!env.readable ==> r == Out(w.(items := None), IoError))
            && (r.world.items == if r.status.Ok? then Some(items) else None)
            && (forall f :: f in ImageFiles(items) && f in w.dir.images ==>
                  f in r.world.dir.images && r.world.dir.images[f] == w.dir.images[f])
            && (env.readable && OnlyListedStuck(w, env) ==> r.status.Ok?)
            && (r.status.Ok? ==> forall f :: f in env.listing && f !in ImageFiles(items) ==> f !in r.world.dir.images)
  {
    var items := Listed(w.dir.meta);
    RemoveMeaning(w.dir.images, ImageFiles(items), env.listing, env.stuck);
    if OnlyListedStuck(w, env) {
      OnlyKeptStuck(w.dir.images, ImageFiles(items), env.listing, env.stuck);
    }
  }

  /** A crash closes the store and leaves directory and log as they are; a store has to be opened again. */
  lemma {:induction false} CrashCloses(w: World, env: OpenEnv)
    ensures Step(w, Crashed) == World(w.dir, None, w.added)
    ensures Enabled(Step(w, Crashed), Opened(env))
  {
  }

  lemma {:induction false} OnlyKeptStuck(images: map<FileName, Bytes>, keep: set<FileName>, order: seq<FileName>,
                                         stuck: set<FileName>)
    requires forall f :: f in order && f in images && f in stuck ==> f in keep
    ensures Remove(images, keep, order, stuck).status.Ok?
    decreases |order|
  {
    if order != [] {
      assert forall f :: f in order[1..] ==> f in order;
      OnlyKeptStuck(if order[0] in keep then images else images - {order[0]}, keep, order[1..], stuck);
    }
  }

  // ---- How long an item stays listed ----

  /** The event adds a row. */
  predicate AddsRow(w: World, e: Event)
    requires Enabled(w, e)
  {
    e.Added? && Lands(w.items.value, e.item, e.add)
  }

  function RowsAdded(w: World, events: seq<Event>): (n: nat)
    requires Legal(w, events)
    decreases |events|
  {
    if events == [] then 0
    else (if AddsRow(w, events[0]) then 1 else 0) + RowsAdded(Step(w, events[0]), events[1..])
  }

  /** Nothing is cleared, and the id is not added anew. */
  predicate LeavesAlone(events: seq<Event>, id: Id)
  {
    forall e :: e in events ==> !(e.Cleared? && e.clear.Written?) && !(e.Added? && e.item.id == id)
  }

  /** `k` rows follow the row of the id. */
  predicate FollowedBy(items: seq<Item>, id: Id, k: nat)
  {
    k < |items| && items[|items| - 1 - k].id == id
  }

  lemma {:induction false} AppendShifts(items: seq<Item>, row: Item, id: Id, k: nat)
    requires UniqueIds(items) && |items| <= 50 && FollowedBy(items, id, k) && row.id != id
    ensures var items' := if |items| < 50 then items + [row] else items[1..] + [row];
            if k + 1 < 50 then FollowedBy(items', id, k + 1) else !IsListed(items', id)
  {
    if k + 1 == 50 {
      assert items[0].id == id;
    }
  }

  lemma {:induction false} AddShifts(w: World, n: NewItem, env: AddEnv, id: Id, k: nat)
    requires Inv(w) && w.items.Some? && n.id != id && FollowedBy(w.items.value, id, k)
    ensures var items' := Listed(Add(w, n, env).world.dir.meta);
            var k' := if Lands(w.items.value, n, env) then k + 1 else k;
            if k' < 50 then FollowedBy(items', id, k') else !IsListed(items', id)
  {
    ListedIsValid(w.dir.meta);
    AddListsExactly(w, n, env);
    AppendShifts(w.items.value, RowFor(n), id, k);
  }

  lemma {:induction false} StepShifts(w: World, e: Event, id: Id, k: nat)
    requires Inv(w) && Enabled(w, e) && LeavesAlone([e], id) && FollowedBy(Listed(w.dir.meta), id, k)
    ensures var items', k' := Listed(Step(w, e).dir.meta), if AddsRow(w, e) then k + 1 else k;
            if k' < 50 then FollowedBy(items', id, k') else !IsListed(items', id)
  {
    ListedIsValid(w.dir.meta);
    assert e in [e];
    match e
    case Added(n, env) => AddShifts(w, n, env, id, k);
    case Sourced(sid, source, meta) => SetSourceExactly(w, sid, source, meta);
    case Cleared(meta, stuck) => ClearExactly(w, meta, stuck);
    case Opened(env) => OpenExactly(w, env);
    case Crashed =>
  }

  lemma {:induction false} StaysGone(w: World, e: Event, id: Id)
    requires Inv(w) && Enabled(w, e) && LeavesAlone([e], id) && !IsListed(Listed(w.dir.meta), id)
    ensures !IsListed(Listed(Step(w, e).dir.meta), id)
  {
    assert e in [e];
    match e
    case Added(n, env) => AddListsExactly(w, n, env);
    case Sourced(sid, source, meta) => SetSourceExactly(w, sid, source, meta);
    case Cleared(meta, stuck) => ClearExactly(w, meta, stuck);
    case Opened(env) => OpenExactly(w, env);
    case Crashed =>
  }

  lemma {:induction false} RunStaysGone(w: World, events: seq<Event>, id: Id)
    requires Inv(w) && Legal(w, events) && LeavesAlone(events, id) && !IsListed(Listed(w.dir.meta), id)
    ensures !IsListed(Listed(Run(w, events).dir.meta), id)
    decreases |events|
  {
    if events != [] {
      assert events[0] in events;
      StepKeepsInv(w, events[0]);
      StaysGone(w, events[0], id);
      RunStaysGone(Step(w, events[0]), events[1..], id);
    }
  }

  /** Over every run of additions, promotions, failures, crashes and restarts: an item stays listed exactly as long as
      it and the rows after it, those added since included, are no more than 50. */
  lemma {:induction false} StaysListedExactly(w: World, events: seq<Event>, id: Id, k: nat)
    requires Inv(w) && Legal(w, events) && LeavesAlone(events, id) && FollowedBy(Listed(w.dir.meta), id, k)
    ensures IsListed(Listed(Run(w, events).dir.meta), id) <==> k + RowsAdded(w, events) < 50
    decreases |events|
  {
    ListedIsValid(w.dir.meta);
    if events == [] {
      assert IsListed(Listed(w.dir.meta), id);
    } else {
      var e := events[0];
      assert e in events;
      StepKeepsInv(w, e);
      StepShifts(w, e, id, k);
      var k' := if AddsRow(w, e) then k + 1 else k;
      if k' < 50 {
        StaysListedExactly(Step(w, e), events[1..], id, k');
      } else {
        RunStaysGone(Step(w, e), events[1..], id);
      }
    }
  }
}

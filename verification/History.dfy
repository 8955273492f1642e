/** The durable clipboard history: a metadata file of at most 50 rows plus one file per image.
    `World` is the directory, the live store's list (none while no store is open) and a log of
    what was durably added. Each operation takes the results of its file operations as an
    argument, so every failure and every crash point is one of its runs. */
module History {
  import opened Prelude

  const HISTORY_CAP: nat := 50

  type Id = nat

  datatype Source = Local | Remote | RemoteDeferred

  datatype Content = Text(text: string) | Image(bytes: Bytes)

  /** Entry names of the image directory: `<id>.img`, or anything else (temp and foreign files). */
  datatype FileName = ImageFile(id: Id) | OtherFile(name: string)

  datatype Kind = TextKind(content: string) | ImageKind(file: FileName)

  datatype Item = Item(id: Id, ts: int, kind: Kind, source: Source)

  datatype NewItem = NewItem(id: Id, ts: int, source: Source, content: Content)

  /** One line of the metadata file. */
  datatype Line = Blank | Corrupt | Row(item: Item)

  datatype Dir = Dir(meta: Option<seq<Line>>, images: map<FileName, Bytes>)

  datatype World = World(dir: Dir, items: Option<seq<Item>>, added: map<Id, NewItem>)

  datatype Status = Ok | IoError | UnknownItem | NotImage

  datatype Out = Out(world: World, status: Status)

  /** Result of one temp-file, fsync, rename sequence. The rename is its last action, so a failure
      leaves the target as it was and at most a partial temp file behind. */
  datatype Write = Written | Failed(temp: Option<string>, partial: Bytes)

  datatype AddEnv = AddEnv(image: Write, meta: Write, rollback: bool, evict: bool)

  datatype OpenEnv = OpenEnv(readable: bool, listing: seq<FileName>, stuck: set<FileName>)

  // ---- The metadata file ----

  predicate ValidReference(item: Item)
  {
    item.kind.ImageKind? ==> item.kind.file == ImageFile(item.id)
  }

  function Encode(items: seq<Item>): (lines: seq<Line>)
  {
    seq(|items|, i requires 0 <= i < |items| => Row(items[i]))
  }

  function LoadFrom(lines: seq<Line>, seen: set<Id>): (items: seq<Item>)
  {
    if lines == [] then []
    else if lines[0].Row? && ValidReference(lines[0].item) && lines[0].item.id !in seen then
      [lines[0].item] + LoadFrom(lines[1..], seen + {lines[0].item.id})
    else LoadFrom(lines[1..], seen)
  }

  /** The list a store opened on this metadata file would hold. */
  function Listed(meta: Option<seq<Line>>): (items: seq<Item>)
  {
    match meta
    case None => []
    case Some(lines) => LastN(LoadFrom(lines, {}), HISTORY_CAP)
  }

  predicate UniqueIds(items: seq<Item>)
  {
    forall i, j :: 0 <= i < j < |items| ==> items[i].id != items[j].id
  }

  predicate ValidList(items: seq<Item>)
  {
    && |items| <= HISTORY_CAP
    && UniqueIds(items)
    && (forall it :: it in items ==> ValidReference(it))
  }

  function Ids(items: seq<Item>): (r: set<Id>)
  {
    set it | it in items :: it.id
  }

  function ImageFiles(items: seq<Item>): (r: set<FileName>)
  {
    set it | it in items && it.kind.ImageKind? :: it.kind.file
  }

  /** Row `i` is the one that survives loading: it parses, refers to its own image file, and no
      earlier such row has its id. */
  predicate Survives(lines: seq<Line>, seen: set<Id>, i: nat)
  {
    && i < |lines| && lines[i].Row? && ValidReference(lines[i].item) && lines[i].item.id !in seen
    && (forall j :: 0 <= j < i && lines[j].Row? && ValidReference(lines[j].item)
          ==> lines[j].item.id != lines[i].item.id)
  }

  lemma {:induction false} LoadUnique(lines: seq<Line>, seen: set<Id>)
    ensures UniqueIds(LoadFrom(lines, seen))
    ensures forall it :: it in LoadFrom(lines, seen) ==> it.id !in seen
  {
    if lines != [] {
      if lines[0].Row? && ValidReference(lines[0].item) && lines[0].item.id !in seen {
        var rest := LoadFrom(lines[1..], seen + {lines[0].item.id});
        LoadUnique(lines[1..], seen + {lines[0].item.id});
        assert forall k :: 0 <= k < |rest| ==> rest[k] in rest;
      } else {
        LoadUnique(lines[1..], seen);
      }
    }
  }

  /** What surviving means one row further on. */
  lemma {:induction false} SurvivesNext(lines: seq<Line>, seen: set<Id>, seen': set<Id>, i: nat)
    requires lines != [] && (lines[0].Row? && ValidReference(lines[0].item) ==> lines[0].item.id in seen')
    requires seen <= seen'
    requires forall x :: x in seen' && x !in seen ==>
               lines[0].Row? && ValidReference(lines[0].item) && x == lines[0].item.id
    ensures Survives(lines, seen, i + 1) <==> Survives(lines[1..], seen', i)
  {
  }

  lemma {:induction false} LoadSound(lines: seq<Line>, seen: set<Id>, it: Item)
    requires it in LoadFrom(lines, seen)
    ensures exists i: nat :: Survives(lines, seen, i) && lines[i].item == it
  {
    var takes := lines[0].Row? && ValidReference(lines[0].item) && lines[0].item.id !in seen;
    if takes && it == lines[0].item {
      assert Survives(lines, seen, 0);
    } else {
      var seen' := if takes then seen + {lines[0].item.id} else seen;
      LoadSound(lines[1..], seen', it);
      var i: nat :| Survives(lines[1..], seen', i) && lines[1..][i].item == it;
      SurvivesNext(lines, seen, seen', i);
    }
  }

  lemma {:induction false} LoadComplete(lines: seq<Line>, seen: set<Id>, i: nat)
    requires Survives(lines, seen, i)
    ensures lines[i].item in LoadFrom(lines, seen)
  {
    if i > 0 {
      var takes := lines[0].Row? && ValidReference(lines[0].item) && lines[0].item.id !in seen;
      var seen' := if takes then seen + {lines[0].item.id} else seen;
      SurvivesNext(lines, seen, seen', i - 1);
      LoadComplete(lines[1..], seen', i - 1);
    }
  }

  /** Loading an arbitrary file yields exactly its surviving rows, each id once. */
  lemma {:induction false} LoadMeaning(lines: seq<Line>, seen: set<Id>)
    ensures UniqueIds(LoadFrom(lines, seen))
    ensures forall it :: it in LoadFrom(lines, seen) <==>
              exists i: nat :: Survives(lines, seen, i) && lines[i].item == it
  {
    LoadUnique(lines, seen);
    forall it | it in LoadFrom(lines, seen)
      ensures exists i: nat :: Survives(lines, seen, i) && lines[i].item == it
    {
      LoadSound(lines, seen, it);
    }
    forall i: nat | Survives(lines, seen, i)
      ensures lines[i].item in LoadFrom(lines, seen)
    {
      LoadComplete(lines, seen, i);
    }
  }

  lemma {:induction false} ListedIsValid(meta: Option<seq<Line>>)
    ensures ValidList(Listed(meta))
  {
    if meta.Some? {
      LoadMeaning(meta.value, {});
      var loaded := LoadFrom(meta.value, {});
      forall it | it in Listed(meta)
        ensures ValidReference(it)
      {
        assert it in loaded;
      }
    }
  }

  lemma {:induction false} LoadEncoded(items: seq<Item>, seen: set<Id>)
    requires UniqueIds(items)
    requires forall it :: it in items ==> ValidReference(it) && it.id !in seen
    ensures LoadFrom(Encode(items), seen) == items
  {
    if items != [] {
      assert items[0] in items;
      assert Encode(items)[1..] == Encode(items[1..]);
      LoadEncoded(items[1..], seen + {items[0].id});
    }
  }

  /** Reading back what a store persisted yields the same list. */
  lemma {:induction false} PersistRoundTrip(items: seq<Item>)
    requires ValidList(items)
    ensures Listed(Some(Encode(items))) == items
  {
    LoadEncoded(items, {});
  }

  // ---- Removing files ----

  datatype Removal = Removal(images: map<FileName, Bytes>, status: Status)

  /** Removes the files of `order` not in `keep`, stopping at the first one that cannot be removed.
      A missing file is not an error. */
  function Remove(images: map<FileName, Bytes>, keep: set<FileName>, order: seq<FileName>,
                  stuck: set<FileName>): (r: Removal)
  {
    if order == [] then Removal(images, Ok)
    else if order[0] in keep then Remove(images, keep, order[1..], stuck)
    else if order[0] in images && order[0] in stuck then Removal(images, IoError)
    else Remove(images - {order[0]}, keep, order[1..], stuck)
  }

  lemma {:induction false} RemoveMeaning(images: map<FileName, Bytes>, keep: set<FileName>,
                                         order: seq<FileName>, stuck: set<FileName>)
    ensures var r := Remove(images, keep, order, stuck);
            && (forall f :: f in r.images ==> f in images && r.images[f] == images[f])
            && (forall f :: f in images && (f in keep || f !in order) ==> f in r.images)
            && (r.status.Ok? ==> forall f :: f in order && f !in keep ==> f !in r.images)
            && (r.status.Ok? || r.status.IoError?)
  {
    if order != [] {
      var images' := if order[0] in keep then images else images - {order[0]};
      RemoveMeaning(images', keep, order[1..], stuck);
    }
  }

  // ---- Operations ----

  /** Opening loads the list and deletes every file the list does not refer to. */
  function Open(w: World, env: OpenEnv): (r: Out)
    ensures r.status.Ok? <==> r.world.items.Some?
  {
    if !env.readable then Out(w.(items := None), IoError)
    else
      var items := Listed(w.dir.meta);
      var swept := Remove(w.dir.images, ImageFiles(items), env.listing, env.stuck);
      Out(w.(dir := w.dir.(images := swept.images), items := if swept.status.Ok? then Some(items) else None),
          swept.status)
  }

  function AppendCapped(items: seq<Item>, item: Item): (r: seq<Item>)
  {
    if |items| + 1 > HISTORY_CAP then items[1..] + [item] else items + [item]
  }

  function KindOf(n: NewItem): (k: Kind)
  {
    match n.content
    case Text(text) => TextKind(text)
    case Image(_) => ImageKind(ImageFile(n.id))
  }

  /** Image file first, metadata second, evicted image last. */
  function Add(w: World, n: NewItem, env: AddEnv): (r: Out)
    requires w.items.Some?
    ensures r.world.items.Some?
  {
    var items := w.items.value;
    if n.id in Ids(items) then Out(w, Ok)
    else if n.content.Image? && env.image.Failed? then
      Out(w.(dir := w.dir.(images := Litter(w.dir.images, env.image))), IoError)
    else
      var file := ImageFile(n.id);
      var images := if n.content.Image? then w.dir.images[file := n.content.bytes] else w.dir.images;
      if env.meta.Failed? then
        var kept := if n.content.Image? && env.rollback then images - {file} else images;
        Out(w.(dir := w.dir.(images := kept)), IoError)
      else
        var updated := AppendCapped(items, Item(n.id, n.ts, KindOf(n), n.source));
        var added := w.added[n.id := n];
        var evicted := |items| + 1 > HISTORY_CAP && items[0].kind.ImageKind?;
        if evicted && items[0].kind.file in images && !env.evict then
          Out(World(Dir(Some(Encode(updated)), images), Some(updated), added), IoError)
        else
          var left := if evicted then images - {items[0].kind.file} else images;
          Out(World(Dir(Some(Encode(updated)), left), Some(updated), added), Ok)
  }

  function Litter(images: map<FileName, Bytes>, write: Write): (r: map<FileName, Bytes>)
  {
    if write.Failed? && write.temp.Some? then images[OtherFile(write.temp.value) := write.partial] else images
  }

  function FilesInOrder(items: seq<Item>): (r: seq<FileName>)
  {
    if items == [] then []
    else if items[0].kind.ImageKind? then [items[0].kind.file] + FilesInOrder(items[1..])
    else FilesInOrder(items[1..])
  }

  function Clear(w: World, meta: Write, stuck: set<FileName>): (r: Out)
    requires w.items.Some?
    ensures r.world.items.Some?
  {
    if meta.Failed? then Out(w, IoError)
    else
      var removal := Remove(w.dir.images, {}, FilesInOrder(w.items.value), stuck);
      Out(w.(dir := Dir(Some([]), removal.images), items := Some([])), removal.status)
  }

  /** Index of the first item with this id, or the length. */
  function Position(items: seq<Item>, id: Id): (i: nat)
    ensures i <= |items|
    ensures i < |items| ==> items[i].id == id
    ensures forall j :: 0 <= j < i ==> items[j].id != id
  {
    if items == [] || items[0].id == id then 0 else
      var k := Position(items[1..], id);
      assert forall j :: 0 < j < k + 1 ==> items[j] == items[1..][j - 1];
      k + 1
  }

  function SetSource(w: World, id: Id, source: Source, meta: Write): (r: Out)
    requires w.items.Some?
    ensures r.world.items.Some?
  {
    var items := w.items.value;
    var i := Position(items, id);
    if i == |items| then Out(w, UnknownItem)
    else if !(items[i].source.RemoteDeferred? && source.Remote?) then Out(w, Ok)
    else if meta.Failed? then Out(w, IoError)
    else
      var updated := items[i := items[i].(source := Remote)];
      Out(w.(dir := w.dir.(meta := Some(Encode(updated))), items := Some(updated)), Ok)
  }

  // ---- What every run keeps ----

  /** A listed row and the addition it stems from agree, and an image's bytes are on disk in full. */
  predicate Backed(it: Item, n: NewItem, images: map<FileName, Bytes>)
  {
    && it.id == n.id && it.ts == n.ts
    && (it.source == n.source || (n.source.RemoteDeferred? && it.source.Remote?))
    && match n.content
       case Text(text) => it.kind == TextKind(text)
       case Image(bytes) => it.kind == ImageKind(ImageFile(n.id)) && ImageFile(n.id) in images
                            && images[ImageFile(n.id)] == bytes
  }

  ghost predicate Inv(w: World)
  {
    && (forall it :: it in Listed(w.dir.meta) ==>
          it.id in w.added && Backed(it, w.added[it.id], w.dir.images))
    && (w.items.Some? ==> w.items.value == Listed(w.dir.meta))
  }

  lemma {:induction false} AppendCappedValid(items: seq<Item>, item: Item)
    requires ValidList(items) && ValidReference(item) && item.id !in Ids(items)
    ensures ValidList(AppendCapped(items, item))
    ensures forall it :: it in AppendCapped(items, item) ==> it == item || it in items
    ensures |items| == HISTORY_CAP ==> forall it :: it in AppendCapped(items, item) ==> it.id != items[0].id
  {
  }

  /** Once the metadata is renamed, every row is backed whether or not the evicted file is gone. */
  lemma {:induction false} CommitKeepsInv(w: World, n: NewItem, images: map<FileName, Bytes>)
    requires Inv(w) && w.items.Some? && n.id !in Ids(w.items.value)
    requires n.content.Image? ==> ImageFile(n.id) in images && images[ImageFile(n.id)] == n.content.bytes
    requires forall it :: it in AppendCapped(w.items.value, Item(n.id, n.ts, KindOf(n), n.source)) && it.id != n.id
                && ImageFile(it.id) in w.dir.images
               ==> ImageFile(it.id) in images && images[ImageFile(it.id)] == w.dir.images[ImageFile(it.id)]
    ensures var updated := AppendCapped(w.items.value, Item(n.id, n.ts, KindOf(n), n.source));
            Inv(World(Dir(Some(Encode(updated)), images), Some(updated), w.added[n.id := n]))
  {
    ListedIsValid(w.dir.meta);
    var items := w.items.value;
    var item := Item(n.id, n.ts, KindOf(n), n.source);
    var updated := AppendCapped(items, item);
    AppendCappedValid(items, item);
    PersistRoundTrip(updated);
    forall it | it in updated
      ensures it.id in w.added[n.id := n] && Backed(it, w.added[n.id := n][it.id], images)
    {
      if it != item {
        assert it in items && it.id in Ids(items);
      }
    }
  }

  lemma {:induction false} AddKeepsInv(w: World, n: NewItem, env: AddEnv)
    requires Inv(w) && w.items.Some?
    ensures Inv(Add(w, n, env).world)
  {
    var items := w.items.value;
    ListedIsValid(w.dir.meta);
    if n.id !in Ids(items) {
      assert forall it :: it in items ==> it.id in Ids(items);
      if (n.content.Image? ==> env.image.Written?) && env.meta.Written? {
        var item := Item(n.id, n.ts, KindOf(n), n.source);
        AppendCappedValid(items, item);
        assert |items| == HISTORY_CAP ==> items[0] in items && ValidReference(items[0]);
        CommitKeepsInv(w, n, Add(w, n, env).world.dir.images);
      }
    }
  }

  lemma {:induction false} OpenKeepsInv(w: World, env: OpenEnv)
    requires Inv(w)
    ensures Inv(Open(w, env).world)
  {
    var items := Listed(w.dir.meta);
    ListedIsValid(w.dir.meta);
    RemoveMeaning(w.dir.images, ImageFiles(items), env.listing, env.stuck);
    forall it | it in items && it.kind.ImageKind?
      ensures it.kind.file in ImageFiles(items)
    {
    }
  }

  lemma {:induction false} SetSourceKeepsInv(w: World, id: Id, source: Source, meta: Write)
    requires Inv(w) && w.items.Some?
    ensures Inv(SetSource(w, id, source, meta).world)
  {
    var items := w.items.value;
    var i := Position(items, id);
    ListedIsValid(w.dir.meta);
    if i < |items| && items[i].source.RemoteDeferred? && source.Remote? {
      var updated := items[i := items[i].(source := Remote)];
      forall it | it in updated
        ensures ValidReference(it) && it.id in w.added && Backed(it, w.added[it.id], w.dir.images)
      {
        var k :| 0 <= k < |updated| && updated[k] == it;
        assert items[k] in items;
      }
      PersistRoundTrip(updated);
    }
  }

  lemma {:induction false} ClearKeepsInv(w: World, meta: Write, stuck: set<FileName>)
    requires Inv(w) && w.items.Some?
    ensures Inv(Clear(w, meta, stuck).world)
  {
  }

  datatype Event =
    | Opened(open: OpenEnv)
    | Added(item: NewItem, add: AddEnv)
    | Cleared(clear: Write, stuck: set<FileName>)
    | Sourced(id: Id, source: Source, persist: Write)
    | Crashed

  /** Exactly one store is open at a time: operations need it, opening needs it gone. */
  predicate Enabled(w: World, e: Event)
  {
    match e
    case Opened(_) => w.items.None?
    case Crashed => true
    case _ => w.items.Some?
  }

  function Step(w: World, e: Event): (w': World)
    requires Enabled(w, e)
  {
    match e
    case Opened(env) => Open(w, env).world
    case Added(n, env) => Add(w, n, env).world
    case Cleared(meta, stuck) => Clear(w, meta, stuck).world
    case Sourced(id, source, meta) => SetSource(w, id, source, meta).world
    case Crashed => w.(items := None)
  }

  predicate Legal(w: World, events: seq<Event>)
    decreases |events|
  {
    events == [] || (Enabled(w, events[0]) && Legal(Step(w, events[0]), events[1..]))
  }

  function Run(w: World, events: seq<Event>): (w': World)
    requires Legal(w, events)
    decreases |events|
  {
    if events == [] then w else Run(Step(w, events[0]), events[1..])
  }

  lemma {:induction false} StepKeepsInv(w: World, e: Event)
    requires Inv(w) && Enabled(w, e)
    ensures Inv(Step(w, e))
  {
    match e
    case Opened(env) => OpenKeepsInv(w, env);
    case Added(n, env) => AddKeepsInv(w, n, env);
    case Cleared(meta, stuck) => ClearKeepsInv(w, meta, stuck);
    case Sourced(id, source, meta) => SetSourceKeepsInv(w, id, source, meta);
    case Crashed =>
  }

  /** Image integrity over every run of opens, additions, evictions, clears, promotions, failures
      and crashes: the durable list has unique ids and at most 50 rows, every row matches what was
      added, every listed image is on disk with its complete bytes, and a live store holds exactly
      the durable list. */
  lemma {:induction false} HistoryIntegrity(w: World, events: seq<Event>)
    requires Inv(w) && Legal(w, events)
    ensures var w' := Run(w, events);
            && Inv(w') && ValidList(Listed(w'.dir.meta))
    decreases |events|
  {
    if events == [] {
      ListedIsValid(w.dir.meta);
    } else {
      StepKeepsInv(w, events[0]);
      HistoryIntegrity(Step(w, events[0]), events[1..]);
    }
  }

  /** A store opened on the directory of any run holds the last durable list, and the image
      directory is left with exactly the images that list refers to, bytes unchanged. */
  lemma {:induction false} ReopenRestores(w: World, env: OpenEnv)
    requires Inv(w) && env.readable
    requires forall f :: f in w.dir.images ==> f in env.listing
    ensures var r := Open(w, env);
            && r.world.dir.meta == w.dir.meta
            && (r.status.Ok? ==>
                  && r.world.items == Some(Listed(w.dir.meta))
                  && r.world.dir.images.Keys == ImageFiles(Listed(w.dir.meta))
                  && forall f :: f in r.world.dir.images ==> r.world.dir.images[f] == w.dir.images[f])
  {
    var items := Listed(w.dir.meta);
    ListedIsValid(w.dir.meta);
    RemoveMeaning(w.dir.images, ImageFiles(items), env.listing, env.stuck);
    assert forall f :: f in ImageFiles(items) ==> f in w.dir.images;
  }

  /** The durable row of an id. */
  function RowOf(w: World, id: Id): (r: Option<Item>)
  {
    var items := Listed(w.dir.meta);
    var i := Position(items, id);
    if i < |items| then Some(items[i]) else None
  }

  lemma {:induction false} PositionOf(items: seq<Item>, it: Item)
    requires UniqueIds(items) && it in items
    ensures Position(items, it.id) < |items| && items[Position(items, it.id)] == it
  {
  }

  /** The only change a listed row can undergo. */
  predicate OnlyPromoted(before: Item, after: Item)
  {
    after == before || (before.source.RemoteDeferred? && after == before.(source := Remote))
  }

  lemma {:induction false} RowOnlyPromoted(w: World, e: Event, id: Id)
    requires Inv(w) && Enabled(w, e)
    requires RowOf(w, id).Some? && RowOf(Step(w, e), id).Some?
    ensures OnlyPromoted(RowOf(w, id).value, RowOf(Step(w, e), id).value)
  {
    var w' := Step(w, e);
    var items, items' := Listed(w.dir.meta), Listed(w'.dir.meta);
    var before, after := RowOf(w, id).value, RowOf(w', id).value;
    ListedIsValid(w.dir.meta);
    ListedIsValid(w'.dir.meta);
    assert before in items && after in items';
    if items' != items {
      match e
      case Added(n, env) =>
        var item := Item(n.id, n.ts, KindOf(n), n.source);
        AppendCappedValid(items, item);
        PersistRoundTrip(AppendCapped(items, item));
        assert before.id in Ids(items);
        assert after in items;
        PositionOf(items, after);
      case Sourced(sid, source, meta) =>
        var i := Position(items, sid);
        var updated := items[i := items[i].(source := Remote)];
        forall it | it in updated
          ensures ValidReference(it)
        {
          var k :| 0 <= k < |updated| && updated[k] == it;
          assert items[k] in items;
        }
        PersistRoundTrip(updated);
        assert items' == updated;
        var k :| 0 <= k < |items'| && items'[k] == after;
        assert items[k] in items;
        PositionOf(items, items[k]);
      case Cleared(meta, stuck) =>
      case Opened(_) =>
      case Crashed =>
    }
  }

  predicate ListedThroughout(w: World, events: seq<Event>, id: Id)
    requires Legal(w, events)
    decreases |events|
  {
    RowOf(w, id).Some? && (events == [] || ListedThroughout(Step(w, events[0]), events[1..], id))
  }

  /** While an item stays listed, its source can only move from deferred to applied, whatever runs. */
  lemma {:induction false} SourceOnlyPromoted(w: World, events: seq<Event>, id: Id)
    requires Inv(w) && Legal(w, events) && ListedThroughout(w, events, id)
    ensures RowOf(Run(w, events), id).Some?
    ensures OnlyPromoted(RowOf(w, id).value, RowOf(Run(w, events), id).value)
    decreases |events|
  {
    if events != [] {
      StepKeepsInv(w, events[0]);
      RowOnlyPromoted(w, events[0], id);
      SourceOnlyPromoted(Step(w, events[0]), events[1..], id);
    }
  }

  /** What an addition promises its caller: success means durably listed at some point, and the log
      of additions changes at this id only. */
  lemma {:induction false} AddIsLogged(w: World, n: NewItem, env: AddEnv)
    requires Inv(w) && w.items.Some?
    ensures var r := Add(w, n, env);
            && r.world.items.Some?
            && (r.world.added == w.added || r.world.added == w.added[n.id := n])
            && (r.status.Ok? ==> n.id in r.world.added)
  {
  }

  /** Adding an item whose id is listed changes nothing, so replaying an addition is harmless. */
  lemma {:induction false} AddIdempotent(w: World, n: NewItem, env: AddEnv, env': AddEnv)
    requires Inv(w) && w.items.Some?
    ensures var r := Add(w, n, env);
            r.status.Ok? ==> Add(r.world, n, env') == Out(r.world, Ok)
  {
  }

  // ---- The store itself ----

  /** Loads the metadata file row by row. */
  method LoadItems(lines: seq<Line>) returns (items: seq<Item>)
    ensures items == LoadFrom(lines, {})
  {
    var ids: set<Id> := {};
    items := [];
    var i := 0;
    while i < |lines|
      invariant 0 <= i <= |lines|
      invariant LoadFrom(lines, {}) == items + LoadFrom(lines[i..], ids)
    {
      var line := lines[i];
      assert lines[i..][0] == line && lines[i..][1..] == lines[i + 1..];
      i := i + 1;
      if line.Row? && ValidReference(line.item) && line.item.id !in ids {
        ids := ids + {line.item.id};
        items := items + [line.item];
      }
    }
  }

  class HistoryStore {
    var dir: Dir
    var items: seq<Item>
    ghost var added: map<Id, NewItem>

    ghost function View(): (w: World)
      reads this
    {
      World(dir, Some(items), added)
    }

    /** A store object over an existing directory; `Reopen` gives it its contents. */
    constructor (dir: Dir, ghost added: map<Id, NewItem>)
      ensures this.dir == dir && this.added == added && this.items == []
    {
      this.dir := dir;
      this.items := [];
      this.added := added;
    }

    method Reopen(env: OpenEnv) returns (status: Status)
      modifies this
      ensures added == old(added)
      ensures var r := Open(World(old(dir), None, old(added)), env);
              && status == r.status && dir == r.world.dir
              && (status.Ok? ==> View() == r.world)
    {
      if !env.readable {
        return IoError;
      }
      var loaded: seq<Item> := [];
      if dir.meta.Some? {
        loaded := LoadItems(dir.meta.value);
      }
      if |loaded| > HISTORY_CAP {
        loaded := loaded[|loaded| - HISTORY_CAP..];
      }
      status := RemoveFiles(ImageFiles(loaded), env.listing, env.stuck);
      if status.Ok? {
        items := loaded;
      }
    }

    method RemoveFiles(keep: set<FileName>, order: seq<FileName>, stuck: set<FileName>)
      returns (status: Status)
      modifies this`dir
      ensures Removal(dir.images, status) == Remove(old(dir.images), keep, order, stuck)
      ensures dir.meta == old(dir.meta)
    {
      var i := 0;
      while i < |order|
        invariant 0 <= i <= |order|
        invariant dir.meta == old(dir.meta)
        invariant Remove(dir.images, keep, order[i..], stuck) == Remove(old(dir.images), keep, order, stuck)
      {
        var file := order[i];
        assert order[i..][0] == file && order[i..][1..] == order[i + 1..];
        if file !in keep {
          if file in dir.images && file in stuck {
            return IoError;
          }
          dir := dir.(images := dir.images - {file});
        }
        i := i + 1;
      }
      return Ok;
    }

    method AddItem(n: NewItem, env: AddEnv) returns (status: Status)
      modifies this
      ensures Out(View(), status) == Add(old(View()), n, env)
    {
      if n.id in Ids(items) {
        return Ok;
      }
      var file := ImageFile(n.id);
      if n.content.Image? {
        if env.image.Failed? {
          dir := dir.(images := Litter(dir.images, env.image));
          return IoError;
        }
        dir := dir.(images := dir.images[file := n.content.bytes]);
      }
      var updated := items + [Item(n.id, n.ts, KindOf(n), n.source)];
      var evicted: Option<Item> := None;
      if |updated| > HISTORY_CAP {
        evicted := Some(updated[0]);
        assert items != [] ==> updated[0] == items[0] && updated[1..] == items[1..] + [Last(updated)];
        updated := updated[1..];
      }
      if env.meta.Failed? {
        if n.content.Image? && env.rollback {
          dir := dir.(images := dir.images - {file});
        }
        return IoError;
      }
      dir := dir.(meta := Some(Encode(updated)));
      added := added[n.id := n];
      items := updated;
      if evicted.Some? && evicted.value.kind.ImageKind? {
        if evicted.value.kind.file in dir.images && !env.evict {
          return IoError;
        }
        dir := dir.(images := dir.images - {evicted.value.kind.file});
      }
      return Ok;
    }

    method ClearAll(meta: Write, stuck: set<FileName>) returns (status: Status)
      modifies this
      ensures Out(View(), status) == Clear(old(View()), meta, stuck)
    {
      var paths: seq<FileName> := [];
      var i := 0;
      while i < |items|
        invariant 0 <= i <= |items|
        invariant paths + FilesInOrder(items[i..]) == FilesInOrder(items)
      {
        assert items[i..][0] == items[i] && items[i..][1..] == items[i + 1..];
        if items[i].kind.ImageKind? {
          paths := paths + [items[i].kind.file];
        }
        i := i + 1;
      }
      assert items[|items|..] == [] && paths == FilesInOrder(items);
      if meta.Failed? {
        return IoError;
      }
      dir := dir.(meta := Some([]));
      items := [];
      status := RemoveFiles({}, paths, stuck);
    }

    method Promote(id: Id, source: Source, meta: Write) returns (status: Status)
      modifies this
      ensures Out(View(), status) == SetSource(old(View()), id, source, meta)
    {
      var index := Position(items, id);
      if index == |items| {
        return UnknownItem;
      }
      if items[index].source.RemoteDeferred? && source.Remote? {
        var updated := items[index := items[index].(source := Remote)];
        if meta.Failed? {
          return IoError;
        }
        dir := dir.(meta := Some(Encode(updated)));
        items := updated;
      }
      return Ok;
    }

    /** In a consistent store the image of every listed image item is readable and is what was
        added; a text item or an unknown id is refused. */
    method ImageBytes(id: Id) returns (status: Status, bytes: Bytes)
      requires Inv(View())
      ensures status.Ok? <==> exists it :: it in items && it.id == id && it.kind.ImageKind?
      ensures status.UnknownItem? <==> id !in Ids(items)
      ensures status.Ok? ==> id in added && added[id].content == Image(bytes)
    {
      var index := Position(items, id);
      ListedIsValid(dir.meta);
      if index == |items| {
        return UnknownItem, [];
      }
      assert items[index] in items;
      PositionOf(items, items[index]);
      match items[index].kind
      case TextKind(_) =>
        forall it | it in items && it.id == id
          ensures it == items[index]
        {
          PositionOf(items, it);
        }
        return NotImage, [];
      case ImageKind(file) =>
        if file !in dir.images {
          return IoError, [];
        }
        return Ok, dir.images[file];
    }
  }
}

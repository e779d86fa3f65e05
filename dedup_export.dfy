/** The exporter of SpineExport/SpineExport.py: the variant that reuses bones
    and slots by name, keeps its skins in a list searched by name (falling
    back to the first skin), and starts the traversal at the origin marked by
    the document's guides.

    The traversal is specified by the functions VisitAll/VisitChild on an
    immutable State; the class Exporter carries the same state in fields and
    its methods are proved to follow those functions. */
module SpineExportDedup {
  import opened Tags
  import opened Layers
  import opened Skeleton

  /** A skin record of the list.  `attachments` is `None` when the record has
      no "attachments" key at all, as the seeded default skin has. */
  datatype SkinEntry = SkinEntry(name: string, attachments: Option<SkinAttachments>)

  /** The slot context handed to descendants: none, the slot record at an
      index of the document's slot list, or a slot record that was built but
      never listed (its name was taken), kept at an index of `orphans` so that
      updates to it stay visible and stay out of the document. */
  datatype SlotRef = NoSlot | Listed(index: nat) | Orphan(index: nat)

  /** The traversal context: current bone, accumulated offsets, slot, skin. */
  datatype Ctx = Ctx(bone: string, xOffset: real, yOffset: real, slot: SlotRef, skin: string)

  /** Everything the traversal changes: the three document collections, the
      unlisted slot records, the log of saved images and the log of
      directories made. */
  datatype State = State(bones: seq<Bone>, slots: seq<Slot>, orphans: seq<Slot>, skins: seq<SkinEntry>,
                         images: seq<string>, directories: seq<string>)

  /** The traversal either finishes or stops at a missing dictionary key
      (Python's KeyError), with the state reached when it was raised. */
  datatype Outcome = Done(st: State) | Raised(missingKey: string, st: State)

  /** Entering a group gives the context for its children, or raises. */
  datatype Entry = Entered(st: State, inner: Ctx) | EntryRaised(missingKey: string, st: State)

  /** The host's document: its layer tree and its guide positions. */
  datatype HostDocument = HostDocument(root: Node, horizontalGuides: seq<real>, verticalGuides: seq<real>)

  /** The written skeleton file: images directory, bones, slots and skins
      (the animations entry is always empty and is not represented). */
  datatype SpineJson = SpineJson(images: string, bones: seq<Bone>, slots: seq<Slot>, skins: seq<SkinEntry>)

  /** How one export run ends. */
  datatype RunResult =
    | NoDocument
    | Aborted
    | Failed(missingKey: string, images: seq<string>, directories: seq<string>)
    | Exported(json: SpineJson, images: seq<string>, directories: seq<string>)

  /** The document seeded before the traversal, with its default skin record
      as the source writes it: under the key "attachment", so the record has
      no "attachments" entry. */
  function InitialStateAsWritten(): State
  {
    State([Root(RootBoneName)], [], [], [SkinEntry(DefaultSkinName, None)], [], [])
  }

  /** The seeded document with the default skin given the "attachments" map
      every other skin record gets. */
  function InitialState(): State
  {
    State([Root(RootBoneName)], [], [], [SkinEntry(DefaultSkinName, Some(map[]))], [], [])
  }

  /** The traversal's origin: the first vertical guide and the negated first
      horizontal guide when both kinds exist, else (0, 0). */
  function Origin(horizontal: seq<real>, vertical: seq<real>): (real, real)
  {
    if |horizontal| > 0 && |vertical| > 0 then (vertical[0], -horizontal[0]) else (0.0, 0.0)
  }

  // ----- lookups by name (linear searches with early return) -----

  /** Index of the first bone called `name`, or |bones| when there is none. */
  function FindBone(bones: seq<Bone>, name: string): (k: nat)
    ensures k <= |bones|
    ensures k < |bones| ==> bones[k].name == name
    ensures forall j :: 0 <= j < k ==> bones[j].name != name
  {
    if bones == [] then 0
    else if bones[0].name == name then 0
    else 1 + FindBone(bones[1..], name)
  }

  /** `isBoneExist`. */
  function BoneExists(bones: seq<Bone>, name: string): (found: bool)
    ensures found <==> HasBoneNamed(bones, name)
  {
    if bones == [] then false
    else bones[0].name == name || BoneExists(bones[1..], name)
  }

  /** `getBone`: the first bone called `name`, or the first bone of all when
      none is. */
  function GetBone(bones: seq<Bone>, name: string): (b: Bone)
    requires |bones| > 0
    ensures HasBoneNamed(bones, name) ==>
      b.name == name && exists k :: 0 <= k < |bones| && b == bones[k] && forall j :: 0 <= j < k ==> bones[j].name != name
    ensures !HasBoneNamed(bones, name) ==> b == bones[0]
  {
    var k := FindBone(bones, name);
    if k < |bones| then bones[k] else bones[0]
  }

  /** `isSlotExist`. */
  function SlotExists(slots: seq<Slot>, name: string): (found: bool)
    ensures found <==> exists i :: 0 <= i < |slots| && slots[i].name == name
  {
    if slots == [] then false
    else slots[0].name == name || SlotExists(slots[1..], name)
  }

  /** The scan of `getSkin` from record `from` on: the index of the first
      record there called `name`, or |skins| when there is none. */
  function FindSkin(skins: seq<SkinEntry>, name: string, from: nat): (k: nat)
    requires from <= |skins|
    ensures from <= k <= |skins|
    ensures k < |skins| ==> skins[k].name == name
    ensures forall j :: from <= j < k ==> skins[j].name != name
    decreases |skins| - from
  {
    if from == |skins| then from
    else if skins[from].name == name then from
    else FindSkin(skins, name, from + 1)
  }

  /** `getSkin`, as the index of the record it returns: the first record
      called `name`, or the first record of all when none is. */
  function SkinIndex(skins: seq<SkinEntry>, name: string): (k: nat)
    requires |skins| > 0
    ensures k < |skins|
    ensures (exists i :: 0 <= i < |skins| && skins[i].name == name) ==>
      skins[k].name == name && forall j :: 0 <= j < k ==> skins[j].name != name
    ensures (forall i :: 0 <= i < |skins| ==> skins[i].name != name) ==> k == 0
  {
    var k := FindSkin(skins, name, 0);
    if k < |skins| then k else 0
  }

  // ----- the traversal -----

  /** The context fits the state: the seeded collections are there and the
      slot context points at an existing record. */
  predicate Fits(st: State, ctx: Ctx)
  {
    |st.bones| > 0 && |st.skins| > 0
    && (ctx.slot.Listed? ==> ctx.slot.index < |st.slots|)
    && (ctx.slot.Orphan? ==> ctx.slot.index < |st.orphans|)
  }

  /** The collections of `b` are at least as long as those of `a`. */
  predicate Grows(a: State, b: State)
  {
    |a.bones| <= |b.bones| && |a.slots| <= |b.slots| && |a.orphans| <= |b.orphans| && |a.skins| <= |b.skins|
  }

  /** The bone tag of a group: add the bone unless its clean name is
      taken, and move the offsets for the children. */
  function BoneStep(st: State, child: Node, ctx: Ctx): (e: Entry)
    requires |st.bones| > 0
    ensures e.st.slots == st.slots && e.st.orphans == st.orphans && e.st.skins == st.skins
    ensures e.st.images == st.images && e.st.directories == st.directories
    ensures |st.bones| <= |e.st.bones|
    ensures e.Entered? ==> e.inner.slot == ctx.slot && e.inner.skin == ctx.skin
  {
    if !HasTag(child.name, BoneTag) then Entered(st, ctx)
    else
      var name := StripTag(child.name, BoneTag);
      var x := CenterX(child.bounds) - ctx.xOffset;
      var y := FlippedCenterY(child.bounds) - ctx.yOffset;
      if !BoneExists(st.bones, name) then
        Entered(st.(bones := st.bones + [Child(name, ctx.bone, x, y)]),
                ctx.(bone := name, xOffset := ctx.xOffset + x, yOffset := ctx.yOffset + y))
      else
        match GetBone(st.bones, name)
        case Root(_) => EntryRaised("x", st)
        case Child(_, _, px, py) => Entered(st, ctx.(bone := name, xOffset := ctx.xOffset + px, yOffset := ctx.yOffset + py))
  }

  /** The slot tag of a group: a slot on the enclosing bone, listed only if
      its name is new. */
  function SlotStep(st: State, child: Node, enclosing: string, slot: SlotRef): (r: (State, SlotRef))
    ensures r.0.bones == st.bones && r.0.skins == st.skins
    ensures r.0.images == st.images && r.0.directories == st.directories
    ensures |st.slots| <= |r.0.slots| && |st.orphans| <= |r.0.orphans|
    ensures r.1 == slot || (r.1.Listed? && r.1.index < |r.0.slots|) || (r.1.Orphan? && r.1.index < |r.0.orphans|)
  {
    if !HasTag(child.name, SlotTag) then (st, slot)
    else
      var s := Slot(StripTag(child.name, SlotTag), enclosing, None);
      if !SlotExists(st.slots, s.name) then (st.(slots := st.slots + [s]), Listed(|st.slots|))
      else (st.(orphans := st.orphans + [s]), Orphan(|st.orphans|))
  }

  /** The skin tag of a group: always a new skin record, and its directory. */
  function SkinStep(directory: string, st: State, child: Node, skin: string): (r: (State, string))
    ensures r.0.bones == st.bones && r.0.slots == st.slots && r.0.orphans == st.orphans
    ensures r.0.images == st.images && |st.skins| <= |r.0.skins|
  {
    if !HasTag(child.name, SkinTag) then (st, skin)
    else
      var name := StripTag(child.name, SkinTag);
      (st.(skins := st.skins + [SkinEntry(name, Some(map[]))],
           directories := EnsureDirectory(st.directories, SkinDirectory(directory, name))), name)
  }

  /** Entering a group that is not merged: bone, then slot, then skin. */
  function GroupStep(directory: string, st: State, child: Node, ctx: Ctx): (e: Entry)
    requires Fits(st, ctx)
    ensures Grows(st, e.st) && e.st.images == st.images
    ensures e.Entered? ==> Fits(e.st, e.inner)
  {
    match BoneStep(st, child, ctx)
    case EntryRaised(k, s) => EntryRaised(k, s)
    case Entered(s1, c1) =>
      var (s2, slot) := SlotStep(s1, child, ctx.bone, ctx.slot);
      var (s3, skin) := SkinStep(directory, s2, child, ctx.skin);
      Entered(s3, c1.(slot := slot, skin := skin))
  }

  /** The slot a leaf's attachment goes into, and what that does to the
      slots: with no slot context a slot named after the leaf is listed if
      the name is new; with one, its attachment is set if still unset. */
  function SlotForLeaf(st: State, name: string, ctx: Ctx): (r: (State, string))
    requires Fits(st, ctx)
    ensures r.0.bones == st.bones && r.0.skins == st.skins
    ensures r.0.images == st.images && r.0.directories == st.directories
    ensures |r.0.slots| >= |st.slots| && |r.0.orphans| == |st.orphans|
    ensures SlotsAdvance(st.slots, r.0.slots) && SlotsAdvance(st.orphans, r.0.orphans)
    ensures forall i :: |st.slots| <= i < |r.0.slots| ==> r.0.slots[i].bone == ctx.bone
  {
    match ctx.slot
    case NoSlot =>
      (if !SlotExists(st.slots, name) then st.(slots := st.slots + [Slot(name, ctx.bone, Some(name))]) else st, name)
    case Listed(i) =>
      var s := st.slots[i];
      (if IsUnset(s.attachment) then st.(slots := st.slots[i := s.(attachment := Some(name))]) else st, s.name)
    case Orphan(i) =>
      var s := st.orphans[i];
      (if IsUnset(s.attachment) then st.(orphans := st.orphans[i := s.(attachment := Some(name))]) else st, s.name)
  }

  /** A leaf or merged group: save the image, settle the slot, then record
      the attachment in the skin record `getSkin` picks. */
  function LeafStep(directory: string, st: State, child: Node, ctx: Ctx): (o: Outcome)
    requires Fits(st, ctx)
    ensures Grows(st, o.st) && o.st.bones == st.bones && o.st.directories == st.directories
    ensures o.st.images == st.images + [ImagePath(directory, ctx.skin, StripTag(child.name, MergeTag))]
    ensures SlotsAdvance(st.slots, o.st.slots) && SlotsAdvance(st.orphans, o.st.orphans)
    ensures forall i :: |st.slots| <= i < |o.st.slots| ==> o.st.slots[i].bone == ctx.bone
  {
    var name := StripTag(child.name, MergeTag);
    var s1 := st.(images := st.images + [ImagePath(directory, ctx.skin, name)]);
    var (s2, slotName) := SlotForLeaf(s1, name, ctx);
    var k := SkinIndex(s2.skins, ctx.skin);
    match s2.skins[k].attachments
    case None => Raised("attachments", s2)
    case Some(m) =>
      Done(s2.(skins := s2.skins[k := SkinEntry(s2.skins[k].name,
                                               Some(RecordAttachment(m, slotName, name, Placement(child, name, ctx.skin, ctx.xOffset, ctx.yOffset))))]))
  }

  /** One child of the node being exported. */
  function VisitChild(directory: string, st: State, child: Node, ctx: Ctx): (o: Outcome)
    requires Fits(st, ctx)
    ensures Grows(st, o.st)
    decreases child
  {
    if IsSkipped(child) then Done(st)
    else if IsStructural(child) then
      match GroupStep(directory, st, child, ctx)
      case EntryRaised(k, s) => Raised(k, s)
      case Entered(s1, inner) => VisitAll(directory, s1, child.children, inner)
    else LeafStep(directory, st, child, ctx)
  }

  /** `_export`: the children in order, each with the same context; a raise
      stops the traversal. */
  function VisitAll(directory: string, st: State, kids: seq<Node>, ctx: Ctx): (o: Outcome)
    requires Fits(st, ctx)
    ensures Grows(st, o.st)
    decreases kids
  {
    if kids == [] then Done(st)
    else
      match VisitChild(directory, st, kids[0], ctx)
      case Raised(k, s) => Raised(k, s)
      case Done(s1) => VisitAll(directory, s1, kids[1..], ctx)
  }

  /** `exportDocument` from the seeded document `seed`: from the document
      and the chosen directory (empty when the chooser was cancelled) to the
      result of the run. */
  function RunFrom(seed: State, host: Option<HostDocument>, directory: string): RunResult
    requires |seed.bones| > 0 && |seed.skins| > 0
  {
    match host
    case None => NoDocument
    case Some(doc) =>
      if directory == "" then Aborted
      else
        var (x0, y0) := Origin(doc.horizontalGuides, doc.verticalGuides);
        match VisitAll(directory, seed, doc.root.children, Ctx(RootBoneName, x0, y0, NoSlot, DefaultSkinName))
        case Raised(k, st) => Failed(k, st.images, st.directories)
        case Done(st) =>
          Exported(SpineJson(directory, st.bones, st.slots, st.skins),
                   st.images + [directory + "/spine.json"], st.directories)
  }

  /** The run from the corrected seed. */
  function Run(host: Option<HostDocument>, directory: string): RunResult
  {
    RunFrom(InitialState(), host, directory)
  }

  /** The run exactly as the source performs it, from the seed as written. */
  function RunAsWritten(host: Option<HostDocument>, directory: string): RunResult
  {
    RunFrom(InitialStateAsWritten(), host, directory)
  }

  /** The outcome a method reports through its state and raised key. */
  function Settle(st: State, raised: Option<string>): Outcome
  {
    if raised.Some? then Raised(raised.value, st) else Done(st)
  }

  /** One export run's mutable state: the document collections being grown
      and the logs of effects. */
  class Exporter {
    const directory: string
    var x: real
    var y: real
    var bones: seq<Bone>
    var slots: seq<Slot>
    var orphans: seq<Slot>
    var skins: seq<SkinEntry>
    var images: seq<string>
    var directories: seq<string>

    function Snapshot(): State
      reads this
    {
      State(bones, slots, orphans, skins, images, directories)
    }

    /** The seeded document, with the default skin's attachment map. */
    constructor (directory: string)
      ensures this.directory == directory
      ensures Snapshot() == InitialState() && x == 0.0 && y == 0.0
    {
      this.directory := directory;
      x, y := 0.0, 0.0;
      bones := [Root(RootBoneName)];
      slots, orphans := [], [];
      skins := [SkinEntry(DefaultSkinName, Some(map[]))];
      images, directories := [], [];
    }

    /** The seeded document exactly as the source builds it. */
    constructor AsWritten(directory: string)
      ensures this.directory == directory
      ensures Snapshot() == InitialStateAsWritten() && x == 0.0 && y == 0.0
    {
      this.directory := directory;
      x, y := 0.0, 0.0;
      bones := [Root(RootBoneName)];
      slots, orphans := [], [];
      skins := [SkinEntry(DefaultSkinName, None)];
      images, directories := [], [];
    }

    /** `setRootPosition`: the origin from the guides. */
    method SetRootPosition(horizontal: seq<real>, vertical: seq<real>)
      modifies this`x, this`y
      ensures |horizontal| > 0 && |vertical| > 0 ==> x == vertical[0] && y == -horizontal[0]
      ensures !(|horizontal| > 0 && |vertical| > 0) ==> x == 0.0 && y == 0.0
      ensures (x, y) == Origin(horizontal, vertical)
    {
      if |horizontal| > 0 && |vertical| > 0 {
        y := -horizontal[0];
        x := vertical[0];
      } else {
        y := 0.0;
        x := 0.0;
      }
    }

    /** `createDirectoy`. */
    method CreateDirectory(name: string)
      modifies this`directories
      ensures directories == EnsureDirectory(old(directories), SkinDirectory(directory, name))
    {
      var path := SkinDirectory(directory, name);
      if path !in directories {
        directories := directories + [path];
      }
    }

    /** The bone tag of the group branch of `_export`. */
    method EnterBone(child: Node, ctx: Ctx) returns (inner: Ctx, raised: Option<string>)
      requires |bones| > 0
      modifies this`bones
      ensures raised.None? ==> BoneStep(old(Snapshot()), child, ctx) == Entered(Snapshot(), inner)
      ensures raised.Some? ==> BoneStep(old(Snapshot()), child, ctx) == EntryRaised(raised.value, Snapshot())
    {
      inner, raised := ctx, None;
      if HasTag(child.name, BoneTag) {
        var newBone := StripTag(child.name, BoneTag);
        var newX := CenterX(child.bounds) - ctx.xOffset;
        var newY := FlippedCenterY(child.bounds) - ctx.yOffset;
        if !BoneExists(bones, newBone) {
          bones := bones + [Child(newBone, ctx.bone, newX, newY)];
          newX := ctx.xOffset + newX;
          newY := ctx.yOffset + newY;
        } else {
          var found := GetBone(bones, newBone);
          if found.Root? {
            return ctx, Some("x");
          }
          newX := ctx.xOffset + found.x;
          newY := ctx.yOffset + found.y;
        }
        inner := ctx.(bone := newBone, xOffset := newX, yOffset := newY);
      }
    }

    /** The slot tag of the group branch of `_export`. */
    method EnterSlot(child: Node, enclosing: string, slot: SlotRef) returns (newSlot: SlotRef)
      modifies this`slots, this`orphans
      ensures SlotStep(old(Snapshot()), child, enclosing, slot) == (Snapshot(), newSlot)
    {
      newSlot := slot;
      if HasTag(child.name, SlotTag) {
        var s := Slot(StripTag(child.name, SlotTag), enclosing, None);
        if !SlotExists(slots, s.name) {
          newSlot := Listed(|slots|);
          slots := slots + [s];
        } else {
          newSlot := Orphan(|orphans|);
          orphans := orphans + [s];
        }
      }
    }

    /** The skin tag of the group branch of `_export`. */
    method EnterSkin(child: Node, skin: string) returns (newSkin: string)
      modifies this`skins, this`directories
      ensures SkinStep(directory, old(Snapshot()), child, skin) == (Snapshot(), newSkin)
    {
      newSkin := skin;
      if HasTag(child.name, SkinTag) {
        newSkin := StripTag(child.name, SkinTag);
        skins := skins + [SkinEntry(newSkin, Some(map[]))];
        CreateDirectory(newSkin);
      }
    }

    /** The group branch of `_export`: bone, slot and skin tags. */
    method EnterGroup(child: Node, ctx: Ctx) returns (inner: Ctx, raised: Option<string>)
      requires Fits(Snapshot(), ctx)
      modifies this`bones, this`slots, this`orphans, this`skins, this`directories
      ensures raised.None? ==> GroupStep(directory, old(Snapshot()), child, ctx) == Entered(Snapshot(), inner)
      ensures raised.Some? ==> GroupStep(directory, old(Snapshot()), child, ctx) == EntryRaised(raised.value, Snapshot())
    {
      inner, raised := EnterBone(child, ctx);
      if raised.Some? {
        return;
      }
      var newSlot := EnterSlot(child, ctx.bone, ctx.slot);
      var newSkin := EnterSkin(child, ctx.skin);
      inner := inner.(slot := newSlot, skin := newSkin);
    }

    /** The leaf branch of `_export`: save, settle the slot, record. */
    method ExportLeaf(child: Node, ctx: Ctx) returns (raised: Option<string>)
      requires Fits(Snapshot(), ctx)
      modifies this`slots, this`orphans, this`skins, this`images
      ensures Settle(Snapshot(), raised) == LeafStep(directory, old(Snapshot()), child, ctx)
    {
      var name := StripTag(child.name, MergeTag);
      images := images + [ImagePath(directory, ctx.skin, name)];
      var slotName := name;
      match ctx.slot {
        case NoSlot =>
          if !SlotExists(slots, name) {
            slots := slots + [Slot(name, ctx.bone, Some(name))];
          }
        case Listed(i) =>
          slotName := slots[i].name;
          if IsUnset(slots[i].attachment) {
            slots := slots[i := slots[i].(attachment := Some(name))];
          }
        case Orphan(i) =>
          slotName := orphans[i].name;
          if IsUnset(orphans[i].attachment) {
            orphans := orphans[i := orphans[i].(attachment := Some(name))];
          }
      }
      var k := SkinIndex(skins, ctx.skin);
      match skins[k].attachments {
        case None =>
          raised := Some("attachments");
        case Some(m) =>
          var byName := if slotName in m then m[slotName] else map[];
          var updated := m[slotName := byName[name := Placement(child, name, ctx.skin, ctx.xOffset, ctx.yOffset)]];
          skins := skins[k := SkinEntry(skins[k].name, Some(updated))];
          raised := None;
      }
    }

    /** `_export`: visit the children of `node` in order. */
    method Export(node: Node, ctx: Ctx) returns (raised: Option<string>)
      requires Fits(Snapshot(), ctx)
      modifies this`bones, this`slots, this`orphans, this`skins, this`images, this`directories
      ensures Settle(Snapshot(), raised) == VisitAll(directory, old(Snapshot()), node.children, ctx)
      decreases node
    {
      var kids := node.children;
      for i := 0 to |kids|
        invariant Fits(Snapshot(), ctx)
        invariant VisitAll(directory, old(Snapshot()), kids, ctx) == VisitAll(directory, Snapshot(), kids[i..], ctx)
      {
        var child := kids[i];
        assert kids[i..][0] == child && kids[i..][1..] == kids[i + 1..];
        if !IsSkipped(child) {
          if IsStructural(child) {
            var inner, r := EnterGroup(child, ctx);
            if r.Some? {
              return r;
            }
            r := Export(child, inner);
            if r.Some? {
              return r;
            }
          } else {
            var r := ExportLeaf(child, ctx);
            if r.Some? {
              return r;
            }
          }
        }
      }
      raised := None;
    }
  }

  /** The body of `exportDocument` once the exporter is seeded: find the
      origin, export the tree, and write the skeleton file unless the
      traversal raised. */
  method ExportSeeded(e: Exporter, doc: HostDocument) returns (r: RunResult)
    requires e.directory != "" && |e.bones| > 0 && |e.skins| > 0
    modifies e
    ensures r == RunFrom(old(e.Snapshot()), Some(doc), e.directory)
  {
    e.SetRootPosition(doc.horizontalGuides, doc.verticalGuides);
    var raised := e.Export(doc.root, Ctx(RootBoneName, e.x, e.y, NoSlot, DefaultSkinName));
    if raised.Some? {
      return Failed(raised.value, e.images, e.directories);
    }
    r := Exported(SpineJson(e.directory, e.bones, e.slots, e.skins), e.images + [e.directory + "/spine.json"], e.directories);
  }

  /** `exportDocument`, seeding the default skin record with its
      "attachments" map. */
  method ExportDocument(host: Option<HostDocument>, directory: string) returns (r: RunResult)
    ensures r == Run(host, directory)
  {
    if host.None? {
      return NoDocument;
    }
    if directory == "" {
      return Aborted;
    }
    var e := new Exporter(directory);
    r := ExportSeeded(e, host.value);
  }

  /** `exportDocument` exactly as written, seeding the default skin record
      without its "attachments" map. */
  method ExportDocumentAsWritten(host: Option<HostDocument>, directory: string) returns (r: RunResult)
    ensures r == RunAsWritten(host, directory)
  {
    if host.None? {
      return NoDocument;
    }
    if directory == "" {
      return Aborted;
    }
    var e := new Exporter.AsWritten(directory);
    r := ExportSeeded(e, host.value);
  }
}

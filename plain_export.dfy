/** The exporter of spineExport/SpineExport.py: the variant that appends a
    bone for every bone group and a slot for every slot group and every
    slot-less leaf, keeps its skins in a dictionary keyed by name, and starts
    the traversal at (0, 0).

    The traversal is specified by the functions VisitAll/VisitChild on an
    immutable State; the class Exporter carries the same state in fields and
    its methods are proved to follow those functions. */
module SpineExportPlain {
  import opened Tags
  import opened Layers
  import opened Skeleton

  /** The slot context handed to descendants: none, or the slot record at an
      index of the document's slot list (every slot record is listed). */
  datatype SlotRef = NoSlot | Listed(index: nat)

  /** The traversal context: current bone, accumulated offsets, slot, skin. */
  datatype Ctx = Ctx(bone: string, xOffset: real, yOffset: real, slot: SlotRef, skin: string)

  /** Everything the traversal changes: the three document collections, the
      log of saved images and the log of directories made. */
  datatype State = State(bones: seq<Bone>, slots: seq<Slot>, skins: map<string, SkinAttachments>,
                         images: seq<string>, directories: seq<string>)

  /** The host's document: its layer tree. */
  datatype HostDocument = HostDocument(root: Node)

  /** The written skeleton file: images directory, bones, slots and skins
      (the animations entry is always empty and is not represented). */
  datatype SpineJson = SpineJson(images: string, bones: seq<Bone>, slots: seq<Slot>, skins: map<string, SkinAttachments>)

  /** How one export run ends. */
  datatype RunResult =
    | NoDocument
    | Aborted
    | Exported(json: SpineJson, images: seq<string>, directories: seq<string>)

  /** The document seeded before the traversal: the root bone, no slots and
      an empty default skin. */
  function InitialState(): State
  {
    State([Root(RootBoneName)], [], map[DefaultSkinName := map[]], [], [])
  }

  /** The context of the root's children. */
  function InitialCtx(): Ctx
  {
    Ctx(RootBoneName, 0.0, 0.0, NoSlot, DefaultSkinName)
  }

  // ----- the traversal -----

  /** The context fits the state: the slot context points at a listed slot
      and the active skin is a key of the skins dictionary, so `getSkin`
      finds it. */
  predicate Fits(st: State, ctx: Ctx)
  {
    (ctx.slot.Listed? ==> ctx.slot.index < |st.slots|) && ctx.skin in st.skins
  }

  /** The collections of `b` are at least as large as those of `a`. */
  predicate Grows(a: State, b: State)
  {
    |a.bones| <= |b.bones| && |a.slots| <= |b.slots| && a.skins.Keys <= b.skins.Keys
  }

  /** The bone tag of a group: always a new bone, and the offsets of its
      centre for the children. */
  function BoneStep(st: State, child: Node, ctx: Ctx): (r: (State, Ctx))
    ensures r.0.slots == st.slots && r.0.skins == st.skins
    ensures r.0.images == st.images && r.0.directories == st.directories
    ensures |st.bones| <= |r.0.bones|
    ensures r.1.slot == ctx.slot && r.1.skin == ctx.skin
  {
    if !HasTag(child.name, BoneTag) then (st, ctx)
    else
      var name := StripTag(child.name, BoneTag);
      var x := CenterX(child.bounds) - ctx.xOffset;
      var y := FlippedCenterY(child.bounds) - ctx.yOffset;
      (st.(bones := st.bones + [Child(name, ctx.bone, x, y)]),
       ctx.(bone := name, xOffset := ctx.xOffset + x, yOffset := ctx.yOffset + y))
  }

  /** The slot tag of a group: always a new slot on the enclosing bone. */
  function SlotStep(st: State, child: Node, enclosing: string, slot: SlotRef): (r: (State, SlotRef))
    ensures r.0.bones == st.bones && r.0.skins == st.skins
    ensures r.0.images == st.images && r.0.directories == st.directories
    ensures |st.slots| <= |r.0.slots|
    ensures r.1 == slot || (r.1.Listed? && r.1.index < |r.0.slots|)
  {
    if !HasTag(child.name, SlotTag) then (st, slot)
    else (st.(slots := st.slots + [Slot(StripTag(child.name, SlotTag), enclosing, None)]), Listed(|st.slots|))
  }

  /** The skin tag of a group: the skin's entry is (re)set to an empty
      dictionary, and its directory is made. */
  function SkinStep(directory: string, st: State, child: Node, skin: string): (r: (State, string))
    ensures r.0.bones == st.bones && r.0.slots == st.slots && r.0.images == st.images
    ensures st.skins.Keys <= r.0.skins.Keys && r.1 in r.0.skins.Keys + {skin}
  {
    if !HasTag(child.name, SkinTag) then (st, skin)
    else
      var name := StripTag(child.name, SkinTag);
      (st.(skins := st.skins[name := map[]],
           directories := EnsureDirectory(st.directories, SkinDirectory(directory, name))), name)
  }

  /** Entering a group that is not merged: bone, then slot, then skin. */
  function GroupStep(directory: string, st: State, child: Node, ctx: Ctx): (r: (State, Ctx))
    requires Fits(st, ctx)
    ensures Grows(st, r.0) && r.0.images == st.images && Fits(r.0, r.1)
  {
    var (s1, c1) := BoneStep(st, child, ctx);
    var (s2, slot) := SlotStep(s1, child, ctx.bone, ctx.slot);
    var (s3, skin) := SkinStep(directory, s2, child, ctx.skin);
    (s3, c1.(slot := slot, skin := skin))
  }

  /** The slot a leaf's attachment goes into, and what that does to the
      slots: with no slot context a new slot named after the leaf is listed;
      with one, its attachment is set if still unset. */
  function SlotForLeaf(st: State, name: string, ctx: Ctx): (r: (State, string))
    requires Fits(st, ctx)
    ensures r.0.bones == st.bones && r.0.skins == st.skins
    ensures r.0.images == st.images && r.0.directories == st.directories
    ensures SlotsAdvance(st.slots, r.0.slots) && |r.0.slots| <= |st.slots| + 1
    ensures forall i :: |st.slots| <= i < |r.0.slots| ==> r.0.slots[i] == Slot(name, ctx.bone, Some(name))
  {
    match ctx.slot
    case NoSlot => (st.(slots := st.slots + [Slot(name, ctx.bone, Some(name))]), name)
    case Listed(i) =>
      var s := st.slots[i];
      (if IsUnset(s.attachment) then st.(slots := st.slots[i := s.(attachment := Some(name))]) else st, s.name)
  }

  /** A leaf or merged group: save the image, settle the slot, then record
      the attachment in the active skin. */
  function LeafStep(directory: string, st: State, child: Node, ctx: Ctx): (r: State)
    requires Fits(st, ctx)
    ensures Grows(st, r) && r.bones == st.bones && r.directories == st.directories
    ensures r.skins.Keys == st.skins.Keys
    ensures r.images == st.images + [ImagePath(directory, ctx.skin, StripTag(child.name, MergeTag))]
  {
    var name := StripTag(child.name, MergeTag);
    var s1 := st.(images := st.images + [ImagePath(directory, ctx.skin, name)]);
    var (s2, slotName) := SlotForLeaf(s1, name, ctx);
    var skin := s2.skins[ctx.skin];
    s2.(skins := s2.skins[ctx.skin := RecordAttachment(skin, slotName, name, Placement(child, name, ctx.skin, ctx.xOffset, ctx.yOffset))])
  }

  /** One child of the node being exported. */
  function VisitChild(directory: string, st: State, child: Node, ctx: Ctx): (r: State)
    requires Fits(st, ctx)
    ensures Grows(st, r)
    decreases child
  {
    if IsSkipped(child) then st
    else if IsStructural(child) then
      var (s1, inner) := GroupStep(directory, st, child, ctx);
      VisitAll(directory, s1, child.children, inner)
    else LeafStep(directory, st, child, ctx)
  }

  /** `_export`: the children in order, each with the same context. */
  function VisitAll(directory: string, st: State, kids: seq<Node>, ctx: Ctx): (r: State)
    requires Fits(st, ctx)
    ensures Grows(st, r)
    decreases kids
  {
    if kids == [] then st
    else VisitAll(directory, VisitChild(directory, st, kids[0], ctx), kids[1..], ctx)
  }

  /** `exportDocument`, from the document and the chosen directory (empty
      when the chooser was cancelled) to the result of the run. */
  function Run(host: Option<HostDocument>, directory: string): RunResult
  {
    match host
    case None => NoDocument
    case Some(doc) =>
      if directory == "" then Aborted
      else
        var st := VisitAll(directory, InitialState(), doc.root.children, InitialCtx());
        Exported(SpineJson(directory, st.bones, st.slots, st.skins),
                 st.images + [directory + "/spine.json"], st.directories)
  }

  /** One export run's mutable state: the document collections being grown
      and the logs of effects. */
  class Exporter {
    const directory: string
    var bones: seq<Bone>
    var slots: seq<Slot>
    var skins: map<string, SkinAttachments>
    var images: seq<string>
    var directories: seq<string>

    function Snapshot(): State
      reads this
    {
      State(bones, slots, skins, images, directories)
    }

    /** The seeded document. */
    constructor (directory: string)
      ensures this.directory == directory
      ensures Snapshot() == InitialState()
    {
      this.directory := directory;
      bones := [Root(RootBoneName)];
      slots := [];
      skins := map[DefaultSkinName := map[]];
      images, directories := [], [];
    }

    /** `getSkin`: the active skin's attachments. */
    method GetSkin(name: string) returns (skin: SkinAttachments)
      requires name in skins
      ensures skin == skins[name]
    {
      skin := skins[name];
    }

    /** `createDirectoy`. */
    method CreateDirectory(name: string)
      modifies this`directories
      ensures directories == EnsureDirectory(old(directories), SkinDirectory(directory, name))
    {
      var path := SkinDirectory(directory, name);
      if path !in directories {
        directories := directories + [path];
      }
    }

    /** The bone tag of the group branch of `_export`. */
    method EnterBone(child: Node, ctx: Ctx) returns (inner: Ctx)
      modifies this`bones
      ensures BoneStep(old(Snapshot()), child, ctx) == (Snapshot(), inner)
    {
      inner := ctx;
      if HasTag(child.name, BoneTag) {
        var newBone := StripTag(child.name, BoneTag);
        var newX := CenterX(child.bounds) - ctx.xOffset;
        var newY := FlippedCenterY(child.bounds) - ctx.yOffset;
        bones := bones + [Child(newBone, ctx.bone, newX, newY)];
        inner := ctx.(bone := newBone, xOffset := ctx.xOffset + newX, yOffset := ctx.yOffset + newY);
      }
    }

    /** The slot tag of the group branch of `_export`. */
    method EnterSlot(child: Node, enclosing: string, slot: SlotRef) returns (newSlot: SlotRef)
      modifies this`slots
      ensures SlotStep(old(Snapshot()), child, enclosing, slot) == (Snapshot(), newSlot)
    {
      newSlot := slot;
      if HasTag(child.name, SlotTag) {
        newSlot := Listed(|slots|);
        slots := slots + [Slot(StripTag(child.name, SlotTag), enclosing, None)];
      }
    }

    /** The skin tag of the group branch of `_export`. */
    method EnterSkin(child: Node, skin: string) returns (newSkin: string)
      modifies this`skins, this`directories
      ensures SkinStep(directory, old(Snapshot()), child, skin) == (Snapshot(), newSkin)
    {
      newSkin := skin;
      if HasTag(child.name, SkinTag) {
        newSkin := StripTag(child.name, SkinTag);
        skins := skins[newSkin := map[]];
        CreateDirectory(newSkin);
      }
    }

    /** The group branch of `_export`: bone, slot and skin tags. */
    method EnterGroup(child: Node, ctx: Ctx) returns (inner: Ctx)
      requires Fits(Snapshot(), ctx)
      modifies this`bones, this`slots, this`skins, this`directories
      ensures GroupStep(directory, old(Snapshot()), child, ctx) == (Snapshot(), inner)
    {
      inner := EnterBone(child, ctx);
      var newSlot := EnterSlot(child, ctx.bone, ctx.slot);
      var newSkin := EnterSkin(child, ctx.skin);
      inner := inner.(slot := newSlot, skin := newSkin);
    }

    /** The leaf branch of `_export`: save, settle the slot, record. */
    method ExportLeaf(child: Node, ctx: Ctx)
      requires Fits(Snapshot(), ctx)
      modifies this`slots, this`skins, this`images
      ensures Snapshot() == LeafStep(directory, old(Snapshot()), child, ctx)
    {
      var name := StripTag(child.name, MergeTag);
      images := images + [ImagePath(directory, ctx.skin, name)];
      var slotName := name;
      match ctx.slot {
        case NoSlot =>
          slots := slots + [Slot(name, ctx.bone, Some(name))];
        case Listed(i) =>
          slotName := slots[i].name;
          if IsUnset(slots[i].attachment) {
            slots := slots[i := slots[i].(attachment := Some(name))];
          }
      }
      var skinDict := GetSkin(ctx.skin);
      var byName := if slotName in skinDict then skinDict[slotName] else map[];
      skinDict := skinDict[slotName := byName[name := Placement(child, name, ctx.skin, ctx.xOffset, ctx.yOffset)]];
      skins := skins[ctx.skin := skinDict];
    }

    /** `_export`: visit the children of `node` in order. */
    method Export(node: Node, ctx: Ctx)
      requires Fits(Snapshot(), ctx)
      modifies this`bones, this`slots, this`skins, this`images, this`directories
      ensures Snapshot() == VisitAll(directory, old(Snapshot()), node.children, ctx)
      decreases node
    {
      var kids := node.children;
      for i := 0 to |kids|
        invariant Fits(Snapshot(), ctx)
        invariant VisitAll(directory, old(Snapshot()), kids, ctx) == VisitAll(directory, Snapshot(), kids[i..], ctx)
      {
        var child := kids[i];
        assert kids[i..][0] == child && kids[i..][1..] == kids[i + 1..];
        if !IsSkipped(child) {
          if IsStructural(child) {
            var inner := EnterGroup(child, ctx);
            Export(child, inner);
          } else {
            ExportLeaf(child, ctx);
          }
        }
      }
    }
  }

  /** `exportDocument`: seed the document, export the tree from the origin
      and write the skeleton file. */
  method ExportDocument(host: Option<HostDocument>, directory: string) returns (r: RunResult)
    ensures r == Run(host, directory)
  {
    if host.None? {
      return NoDocument;
    }
    if directory == "" {
      return Aborted;
    }
    var e := new Exporter(directory);
    e.Export(host.value.root, InitialCtx());
    r := Exported(SpineJson(directory, e.bones, e.slots, e.skins), e.images + [directory + "/spine.json"], e.directories);
  }
}

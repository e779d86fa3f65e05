/** Properties of the exporter of spineExport/SpineExport.py, proved about
    the traversal functions of module SpineExportPlain. */
module SpineExportPlainProps {
  import opened Tags
  import opened Layers
  import opened Skeleton
  import opened SpineExportPlain

  // ----- skipped children -----

  /** A skipped child contributes nothing: removing it from a child list
      does not change the result, so nothing below it is visited. */
  lemma {:induction false} SkippedChildIsInert(directory: string, st: State, pre: seq<Node>, c: Node, post: seq<Node>, ctx: Ctx)
    requires Fits(st, ctx) && IsSkipped(c)
    ensures VisitAll(directory, st, pre + [c] + post, ctx) == VisitAll(directory, st, pre + post, ctx)
    decreases pre
  {
    if pre == [] {
      assert pre + [c] + post == [c] + post && pre + post == post;
      assert ([c] + post)[1..] == post;
    } else {
      assert (pre + [c] + post)[0] == pre[0] && (pre + post)[0] == pre[0];
      assert (pre + [c] + post)[1..] == pre[1..] + [c] + post;
      assert (pre + post)[1..] == pre[1..] + post;
      SkippedChildIsInert(directory, VisitChild(directory, st, pre[0], ctx), pre[1..], c, post, ctx);
    }
  }

  // ----- saved images follow the file layout -----

  /** The images saved are exactly those of the layout computed from the tree
      alone, in traversal order. */
  lemma {:induction false} VisitAllImages(directory: string, st: State, kids: seq<Node>, ctx: Ctx)
    requires Fits(st, ctx)
    ensures VisitAll(directory, st, kids, ctx).images == st.images + ExpectedImages(directory, kids, ctx.skin)
    decreases kids
  {
    if kids != [] {
      var s1 := VisitChild(directory, st, kids[0], ctx);
      VisitChildImages(directory, st, kids[0], ctx);
      VisitAllImages(directory, s1, kids[1..], ctx);
      assert st.images + ExpectedImagesOf(directory, kids[0], ctx.skin) + ExpectedImages(directory, kids[1..], ctx.skin)
          == s1.images + ExpectedImages(directory, kids[1..], ctx.skin);
    }
  }

  lemma {:induction false} VisitChildImages(directory: string, st: State, child: Node, ctx: Ctx)
    requires Fits(st, ctx)
    ensures VisitChild(directory, st, child, ctx).images == st.images + ExpectedImagesOf(directory, child, ctx.skin)
    decreases child
  {
    if !IsSkipped(child) && IsStructural(child) {
      var (s1, inner) := GroupStep(directory, st, child, ctx);
      assert inner.skin == if HasTag(child.name, SkinTag) then StripTag(child.name, SkinTag) else ctx.skin;
      VisitAllImages(directory, s1, child.children, inner);
    }
  }

  // ----- bones follow the bone groups -----

  /** The bones the traversal adds for `kids` under bone `parent` at offsets
      (`xOffset`, `yOffset`), computed from the tree alone: one bone per
      visited bone group, parented to the nearest enclosing bone group (or the
      root), placed at its centre relative to that parent's centre, in
      traversal order.  Slot and skin tags play no part. */
  function ExpectedBones(kids: seq<Node>, parent: string, xOffset: real, yOffset: real): seq<Bone>
    decreases kids
  {
    if kids == [] then []
    else ExpectedBonesOf(kids[0], parent, xOffset, yOffset) + ExpectedBones(kids[1..], parent, xOffset, yOffset)
  }

  function ExpectedBonesOf(child: Node, parent: string, xOffset: real, yOffset: real): seq<Bone>
    decreases child
  {
    if IsSkipped(child) || !IsStructural(child) then []
    else if HasTag(child.name, BoneTag) then
      var name := StripTag(child.name, BoneTag);
      var cx := CenterX(child.bounds);
      var cy := FlippedCenterY(child.bounds);
      [Child(name, parent, cx - xOffset, cy - yOffset)] + ExpectedBones(child.children, name, cx, cy)
    else ExpectedBones(child.children, parent, xOffset, yOffset)
  }

  /** Every bone group visited appends exactly its bone: the bones are the
      seeded ones followed by those of the tree's bone groups, duplicates
      and all. */
  lemma {:induction false} VisitAllBones(directory: string, st: State, kids: seq<Node>, ctx: Ctx)
    requires Fits(st, ctx)
    ensures VisitAll(directory, st, kids, ctx).bones == st.bones + ExpectedBones(kids, ctx.bone, ctx.xOffset, ctx.yOffset)
    decreases kids
  {
    if kids != [] {
      var s1 := VisitChild(directory, st, kids[0], ctx);
      var first := ExpectedBonesOf(kids[0], ctx.bone, ctx.xOffset, ctx.yOffset);
      var rest := ExpectedBones(kids[1..], ctx.bone, ctx.xOffset, ctx.yOffset);
      VisitChildBones(directory, st, kids[0], ctx);
      VisitAllBones(directory, s1, kids[1..], ctx);
      AppendAssociative(st.bones, first, rest);
    }
  }

  lemma {:induction false} VisitChildBones(directory: string, st: State, child: Node, ctx: Ctx)
    requires Fits(st, ctx)
    ensures VisitChild(directory, st, child, ctx).bones == st.bones + ExpectedBonesOf(child, ctx.bone, ctx.xOffset, ctx.yOffset)
    decreases child
  {
    if !IsSkipped(child) && IsStructural(child) {
      var g := GroupStep(directory, st, child, ctx);
      VisitGroup(directory, st, child, ctx);
      VisitAllBones(directory, g.0, child.children, g.1);
      GroupBones(directory, st, child, ctx);
    }
  }

  /** Visiting a group is entering it and visiting its children. */
  lemma VisitGroup(directory: string, st: State, child: Node, ctx: Ctx)
    requires Fits(st, ctx) && !IsSkipped(child) && IsStructural(child)
    ensures var g := GroupStep(directory, st, child, ctx);
      VisitChild(directory, st, child, ctx) == VisitAll(directory, g.0, child.children, g.1)
  {
  }

  /** The bones a group contributes are those of entering it followed by
      those of its children in the context it hands them. */
  lemma GroupBones(directory: string, st: State, child: Node, ctx: Ctx)
    requires Fits(st, ctx) && !IsSkipped(child) && IsStructural(child)
    ensures var g := GroupStep(directory, st, child, ctx);
      st.bones + ExpectedBonesOf(child, ctx.bone, ctx.xOffset, ctx.yOffset)
      == g.0.bones + ExpectedBones(child.children, g.1.bone, g.1.xOffset, g.1.yOffset)
  {
    var g := GroupStep(directory, st, child, ctx);
    var below := ExpectedBones(child.children, g.1.bone, g.1.xOffset, g.1.yOffset);
    if HasTag(child.name, BoneTag) {
      BoneGroup(directory, st, child, ctx);
      var b := Child(g.1.bone, ctx.bone, CenterX(child.bounds) - ctx.xOffset, FlippedCenterY(child.bounds) - ctx.yOffset);
      assert ExpectedBonesOf(child, ctx.bone, ctx.xOffset, ctx.yOffset) == [b] + below;
      assert (st.bones + [b]) + below == st.bones + ([b] + below);
    } else {
      UntaggedGroupKeepsBone(directory, st, child, ctx);
    }
  }

  /** A group without a bone tag adds no bone and hands its children the
      current bone and offsets. */
  lemma UntaggedGroupKeepsBone(directory: string, st: State, child: Node, ctx: Ctx)
    requires Fits(st, ctx) && !HasTag(child.name, BoneTag)
    ensures var (s, inner) := GroupStep(directory, st, child, ctx);
      s.bones == st.bones && inner.bone == ctx.bone && inner.xOffset == ctx.xOffset && inner.yOffset == ctx.yOffset
  {
  }

  // ----- no dangling bone references -----

  /** Every parent and slot bone named in the state, and the context's bone,
      is a bone of the document. */
  predicate Closed(st: State, ctx: Ctx)
  {
    ReferencesClosed(st.bones, st.slots) && HasBoneNamed(st.bones, ctx.bone)
  }

  lemma AppendBoneClosed(bones: seq<Bone>, slots: seq<Slot>, b: Bone)
    requires ReferencesClosed(bones, slots) && b.Child? && HasBoneNamed(bones, b.parent)
    ensures ReferencesClosed(bones + [b], slots) && HasBoneNamed(bones + [b], b.name)
  {
    var more := bones + [b];
    forall i | 0 <= i < |more| && more[i].Child? ensures HasBoneNamed(more, more[i].parent) {
      if i < |bones| {
        assert more[i] == bones[i];
      }
      NamedInPrefix(bones, more, more[i].parent);
    }
    forall i | 0 <= i < |slots| ensures HasBoneNamed(more, slots[i].bone) {
      NamedInPrefix(bones, more, slots[i].bone);
    }
    assert more[|bones|].name == b.name;
  }

  lemma GroupClosed(directory: string, st: State, child: Node, ctx: Ctx)
    requires Fits(st, ctx) && Closed(st, ctx)
    ensures var (s, inner) := GroupStep(directory, st, child, ctx);
      Closed(s, inner) && st.bones <= s.bones
  {
    var (s1, c1) := BoneStep(st, child, ctx);
    if HasTag(child.name, BoneTag) {
      var b := Child(StripTag(child.name, BoneTag), ctx.bone, CenterX(child.bounds) - ctx.xOffset,
                     FlippedCenterY(child.bounds) - ctx.yOffset);
      assert s1.bones == st.bones + [b];
      AppendBoneClosed(st.bones, st.slots, b);
      NamedInPrefix(st.bones, s1.bones, ctx.bone);
    }
    assert Closed(s1, c1) && HasBoneNamed(s1.bones, ctx.bone);
    var (s2, slot) := SlotStep(s1, child, ctx.bone, ctx.slot);
    if HasTag(child.name, SlotTag) {
      assert s2.slots == s1.slots + [Slot(StripTag(child.name, SlotTag), ctx.bone, None)];
    }
    assert Closed(s2, c1.(slot := slot));
  }

  lemma LeafClosed(directory: string, st: State, child: Node, ctx: Ctx)
    requires Fits(st, ctx) && Closed(st, ctx)
    ensures Closed(LeafStep(directory, st, child, ctx), ctx)
  {
    var name := StripTag(child.name, MergeTag);
    var s1 := st.(images := st.images + [ImagePath(directory, ctx.skin, name)]);
    var (s2, _) := SlotForLeaf(s1, name, ctx);
    SlotsStayClosed(st.bones, st.slots, s2.slots);
  }

  /** No dangling references: every added bone's parent, every slot's bone
      and the context's bone name a bone of the document, before and after
      any traversal; and the bones already there stay in place. */
  lemma {:induction false} VisitAllClosed(directory: string, st: State, kids: seq<Node>, ctx: Ctx)
    requires Fits(st, ctx) && Closed(st, ctx)
    ensures var r := VisitAll(directory, st, kids, ctx);
      Closed(r, ctx) && st.bones <= r.bones
    decreases kids
  {
    if kids != [] {
      VisitChildClosed(directory, st, kids[0], ctx);
      VisitAllClosed(directory, VisitChild(directory, st, kids[0], ctx), kids[1..], ctx);
    }
  }

  lemma {:induction false} VisitChildClosed(directory: string, st: State, child: Node, ctx: Ctx)
    requires Fits(st, ctx) && Closed(st, ctx)
    ensures var r := VisitChild(directory, st, child, ctx);
      Closed(r, ctx) && st.bones <= r.bones
    decreases child
  {
    if !IsSkipped(child) {
      if IsStructural(child) {
        GroupClosed(directory, st, child, ctx);
        var (s1, inner) := GroupStep(directory, st, child, ctx);
        VisitAllClosed(directory, s1, child.children, inner);
        NamedInPrefix(st.bones, VisitAll(directory, s1, child.children, inner).bones, ctx.bone);
      } else {
        LeafClosed(directory, st, child, ctx);
      }
    }
  }

  // ----- slots: first attachment wins -----

  lemma GroupSlotsAdvance(directory: string, st: State, child: Node, ctx: Ctx)
    requires Fits(st, ctx)
    ensures SlotsAdvance(st.slots, GroupStep(directory, st, child, ctx).0.slots)
  {
  }

  lemma LeafSlotsAdvance(directory: string, st: State, child: Node, ctx: Ctx)
    requires Fits(st, ctx)
    ensures SlotsAdvance(st.slots, LeafStep(directory, st, child, ctx).slots)
  {
    var name := StripTag(child.name, MergeTag);
    var s1 := st.(images := st.images + [ImagePath(directory, ctx.skin, name)]);
    assert SlotsAdvance(s1.slots, SlotForLeaf(s1, name, ctx).0.slots);
  }

  /** Slot records keep their name and bone, the list only grows, and a slot
      that shows an attachment keeps showing it: the first leaf wins. */
  lemma {:induction false} VisitAllSlotsAdvance(directory: string, st: State, kids: seq<Node>, ctx: Ctx)
    requires Fits(st, ctx)
    ensures SlotsAdvance(st.slots, VisitAll(directory, st, kids, ctx).slots)
    decreases kids
  {
    if kids != [] {
      var s1 := VisitChild(directory, st, kids[0], ctx);
      VisitChildSlotsAdvance(directory, st, kids[0], ctx);
      VisitAllSlotsAdvance(directory, s1, kids[1..], ctx);
      SlotsAdvanceTransitive(st.slots, s1.slots, VisitAll(directory, s1, kids[1..], ctx).slots);
    }
  }

  lemma {:induction false} VisitChildSlotsAdvance(directory: string, st: State, child: Node, ctx: Ctx)
    requires Fits(st, ctx)
    ensures SlotsAdvance(st.slots, VisitChild(directory, st, child, ctx).slots)
    decreases child
  {
    if !IsSkipped(child) {
      if IsStructural(child) {
        var (s1, inner) := GroupStep(directory, st, child, ctx);
        GroupSlotsAdvance(directory, st, child, ctx);
        VisitAllSlotsAdvance(directory, s1, child.children, inner);
        SlotsAdvanceTransitive(st.slots, s1.slots, VisitAll(directory, s1, child.children, inner).slots);
      } else {
        LeafSlotsAdvance(directory, st, child, ctx);
      }
    }
  }

  // ----- one group or leaf at a time -----

  /** A bone group adds one bone, parented to the current bone and placed at
      the centre of its bounds relative to the current offsets, whether or
      not a bone of that name exists; its children are placed relative to
      that centre. */
  lemma BoneGroup(directory: string, st: State, child: Node, ctx: Ctx)
    requires Fits(st, ctx) && HasTag(child.name, BoneTag)
    ensures var name := StripTag(child.name, BoneTag);
      var (s, inner) := GroupStep(directory, st, child, ctx);
      s.bones == st.bones + [Child(name, ctx.bone, CenterX(child.bounds) - ctx.xOffset,
                                   FlippedCenterY(child.bounds) - ctx.yOffset)]
      && inner.bone == name
      && inner.xOffset == CenterX(child.bounds) && inner.yOffset == FlippedCenterY(child.bounds)
  {
  }

  /** A slot group always lists a new slot on the enclosing bone, with no
      attachment, and hands it to its children. */
  lemma SlotGroup(directory: string, st: State, child: Node, ctx: Ctx)
    requires Fits(st, ctx) && HasTag(child.name, SlotTag)
    ensures var (s, inner) := GroupStep(directory, st, child, ctx);
      s.slots == st.slots + [Slot(StripTag(child.name, SlotTag), ctx.bone, None)]
      && inner.slot == Listed(|st.slots|)
  {
  }

  /** A skin group sets its skin's entry to an empty dictionary, discarding
      any attachments recorded under that name before, and makes sure its
      directory exists. */
  lemma SkinGroup(directory: string, st: State, child: Node, ctx: Ctx)
    requires Fits(st, ctx) && HasTag(child.name, SkinTag)
    ensures var name := StripTag(child.name, SkinTag);
      var (s, inner) := GroupStep(directory, st, child, ctx);
      s.skins == st.skins[name := map[]] && inner.skin == name
      && SkinDirectory(directory, name) in s.directories
  {
  }

  /** An exported leaf outside any slot group lists a new slot named after
      it on the current bone, showing it, and records its attachment under
      that slot in the active skin. */
  lemma LeafWithoutSlot(directory: string, st: State, child: Node, ctx: Ctx)
    requires Fits(st, ctx) && ctx.slot == NoSlot
    ensures var name := StripTag(child.name, MergeTag);
      var r := LeafStep(directory, st, child, ctx);
      r.slots == st.slots + [Slot(name, ctx.bone, Some(name))]
      && r.skins == st.skins[ctx.skin := RecordAttachment(st.skins[ctx.skin], name, name, Placement(child, name, ctx.skin, ctx.xOffset, ctx.yOffset))]
  {
  }

  /** An exported leaf inside a slot group shows in that slot only if the
      slot showed nothing yet, and its attachment goes under the slot's
      name. */
  lemma LeafInSlot(directory: string, st: State, child: Node, ctx: Ctx)
    requires Fits(st, ctx) && ctx.slot.Listed?
    ensures var name := StripTag(child.name, MergeTag);
      var i := ctx.slot.index;
      var r := LeafStep(directory, st, child, ctx);
      r.slots == st.slots[i := st.slots[i].(attachment := if IsUnset(st.slots[i].attachment) then Some(name) else st.slots[i].attachment)]
      && r.skins == st.skins[ctx.skin := RecordAttachment(st.skins[ctx.skin], st.slots[i].name, name, Placement(child, name, ctx.skin, ctx.xOffset, ctx.yOffset))]
  {
  }

  // ----- a whole run -----

  /** Every run that gets a document and a directory writes a skeleton whose
      first bone is the root, whose bones and slots reference only its own
      bones, which keeps the default skin, and whose images are those of the
      file layout followed by the skeleton file. */
  lemma RunShape(root: Node, directory: string)
    requires directory != ""
    ensures var r := Run(Some(HostDocument(root)), directory);
      r.Exported?
      && |r.json.bones| > 0 && r.json.bones[0] == Root(RootBoneName)
      && ReferencesClosed(r.json.bones, r.json.slots)
      && DefaultSkinName in r.json.skins
      && r.images == ExpectedImages(directory, root.children, DefaultSkinName) + [directory + "/spine.json"]
  {
    var st := InitialState();
    assert HasBoneNamed(st.bones, RootBoneName) by { assert st.bones[0].name == RootBoneName; }
    VisitAllClosed(directory, st, root.children, InitialCtx());
    VisitAllImages(directory, st, root.children, InitialCtx());
  }

  // ----- names that repeat -----

  /** Two leaves with the same clean name outside any slot group give the
      document two more slots, both of that name. */
  lemma SameNamedLeavesDuplicateSlots(directory: string, st: State, a: Node, b: Node, ctx: Ctx)
    requires Fits(st, ctx) && ctx.slot == NoSlot
    requires !IsSkipped(a) && !IsStructural(a) && !IsSkipped(b) && !IsStructural(b)
    requires StripTag(a.name, MergeTag) == StripTag(b.name, MergeTag)
    ensures var name := StripTag(a.name, MergeTag);
      var r := VisitAll(directory, st, [a, b], ctx);
      r.slots == st.slots + [Slot(name, ctx.bone, Some(name)), Slot(name, ctx.bone, Some(name))]
      && !UniqueSlotNames(r.slots)
  {
    var name := StripTag(a.name, MergeTag);
    var s1 := LeafStep(directory, st, a, ctx);
    LeafWithoutSlot(directory, st, a, ctx);
    var s2 := LeafStep(directory, s1, b, ctx);
    LeafWithoutSlot(directory, s1, b, ctx);
    assert VisitChild(directory, st, a, ctx) == s1;
    assert VisitChild(directory, s1, b, ctx) == s2;
    assert VisitAll(directory, s2, [], ctx) == s2;
    assert VisitAll(directory, s1, [b], ctx) == s2 by { assert [b][0] == b && [b][1..] == []; }
    assert VisitAll(directory, st, [a, b], ctx) == s2 by { assert [a, b][0] == a && [a, b][1..] == [b]; }
    assert s2.slots[|st.slots|] == s2.slots[|st.slots| + 1];
  }

  /** A group called "root (bone)" adds a second bone named "root". */
  lemma RootBoneGroupDuplicatesRoot(directory: string, child: Node)
    requires child.name == RootBoneName + " " + Token(BoneTag)
    ensures var (s, _) := GroupStep(directory, InitialState(), child, InitialCtx());
      |s.bones| == 2 && s.bones[0].name == RootBoneName && s.bones[1].name == RootBoneName
      && !UniqueBoneNames(s.bones)
  {
    TrimStartOfTrimmed(RootBoneName);
    TrimEndOfTrimmed(RootBoneName);
    TaggedCleanName(RootBoneName, BoneTag);
  }

  /** A group called "default (skin)" empties the default skin: attachments
      recorded there before are lost. */
  lemma DefaultSkinGroupResetsDefault(directory: string, st: State, child: Node, ctx: Ctx)
    requires Fits(st, ctx) && child.name == DefaultSkinName + " " + Token(SkinTag)
    ensures var s := GroupStep(directory, st, child, ctx).0;
      DefaultSkinName in s.skins && s.skins[DefaultSkinName] == map[]
  {
    TrimStartOfTrimmed(DefaultSkinName);
    TrimEndOfTrimmed(DefaultSkinName);
    TaggedCleanName(DefaultSkinName, SkinTag);
  }
}

/** Properties of the exporter of SpineExport/SpineExport.py, proved about
    the traversal functions of module SpineExportDedup. */
module SpineExportDedupProps {
  import opened Tags
  import opened Layers
  import opened Skeleton
  import opened SpineExportDedup

  // ----- append-only growth and first-attachment-wins -----

  /** `b` continues `a`: bones and logs only get appended to, slot records
      keep their name and bone and never lose an attachment once set, and
      skin records keep their names. */
  predicate Advances(a: State, b: State)
  {
    a.bones <= b.bones
    && SlotsAdvance(a.slots, b.slots) && SlotsAdvance(a.orphans, b.orphans)
    && |a.skins| <= |b.skins| && (forall i :: 0 <= i < |a.skins| ==> b.skins[i].name == a.skins[i].name)
    && a.images <= b.images && a.directories <= b.directories
  }

  lemma AdvancesTransitive(a: State, b: State, c: State)
    requires Advances(a, b) && Advances(b, c)
    ensures Advances(a, c)
  {
    SlotsAdvanceTransitive(a.slots, b.slots, c.slots);
    SlotsAdvanceTransitive(a.orphans, b.orphans, c.orphans);
  }

  lemma SlotRecordAdvances(slots: seq<Slot>, i: nat, name: string)
    requires i < |slots|
    ensures SlotsAdvance(slots, if IsUnset(slots[i].attachment) then slots[i := slots[i].(attachment := Some(name))] else slots)
  {
  }

  lemma GroupAdvances(directory: string, st: State, child: Node, ctx: Ctx)
    requires Fits(st, ctx)
    ensures Advances(st, GroupStep(directory, st, child, ctx).st)
  {
  }

  lemma LeafAdvances(directory: string, st: State, child: Node, ctx: Ctx)
    requires Fits(st, ctx)
    ensures Advances(st, LeafStep(directory, st, child, ctx).st)
  {
    match ctx.slot
    case NoSlot =>
    case Listed(i) => SlotRecordAdvances(st.slots, i, StripTag(child.name, MergeTag));
    case Orphan(i) => SlotRecordAdvances(st.orphans, i, StripTag(child.name, MergeTag));
  }

  /** The traversal only appends bones, slots, skins and log entries, and a
      slot's attachment, once set, is never replaced: the first leaf wins. */
  lemma {:induction false} VisitAllAdvances(directory: string, st: State, kids: seq<Node>, ctx: Ctx)
    requires Fits(st, ctx)
    ensures Advances(st, VisitAll(directory, st, kids, ctx).st)
    decreases kids
  {
    if kids != [] {
      VisitChildAdvances(directory, st, kids[0], ctx);
      match VisitChild(directory, st, kids[0], ctx)
      case Raised(_, _) =>
      case Done(s1) =>
        VisitAllAdvances(directory, s1, kids[1..], ctx);
        AdvancesTransitive(st, s1, VisitAll(directory, s1, kids[1..], ctx).st);
    }
  }

  lemma {:induction false} VisitChildAdvances(directory: string, st: State, child: Node, ctx: Ctx)
    requires Fits(st, ctx)
    ensures Advances(st, VisitChild(directory, st, child, ctx).st)
    decreases child
  {
    if !IsSkipped(child) {
      if IsStructural(child) {
        GroupAdvances(directory, st, child, ctx);
        match GroupStep(directory, st, child, ctx)
        case EntryRaised(_, _) =>
        case Entered(s1, inner) =>
          VisitAllAdvances(directory, s1, child.children, inner);
          AdvancesTransitive(st, s1, VisitAll(directory, s1, child.children, inner).st);
      } else {
        LeafAdvances(directory, st, child, ctx);
      }
    }
  }

  // ----- bone names stay unique -----

  lemma GroupKeepsBonesUnique(directory: string, st: State, child: Node, ctx: Ctx)
    requires Fits(st, ctx) && UniqueBoneNames(st.bones)
    ensures UniqueBoneNames(GroupStep(directory, st, child, ctx).st.bones)
  {
    var e := BoneStep(st, child, ctx);
    if e.st.bones != st.bones {
      var name := StripTag(child.name, BoneTag);
      assert !HasBoneNamed(st.bones, name);
      assert e.st.bones == st.bones + [Child(name, ctx.bone, CenterX(child.bounds) - ctx.xOffset,
                                             FlippedCenterY(child.bounds) - ctx.yOffset)];
    }
  }

  /** A bone is added only under a name no bone has yet, so bone names stay
      unique however often a name is tagged. */
  lemma {:induction false} VisitAllKeepsBonesUnique(directory: string, st: State, kids: seq<Node>, ctx: Ctx)
    requires Fits(st, ctx) && UniqueBoneNames(st.bones)
    ensures UniqueBoneNames(VisitAll(directory, st, kids, ctx).st.bones)
    decreases kids
  {
    if kids != [] {
      VisitChildKeepsBonesUnique(directory, st, kids[0], ctx);
      match VisitChild(directory, st, kids[0], ctx)
      case Raised(_, _) =>
      case Done(s1) => VisitAllKeepsBonesUnique(directory, s1, kids[1..], ctx);
    }
  }

  lemma {:induction false} VisitChildKeepsBonesUnique(directory: string, st: State, child: Node, ctx: Ctx)
    requires Fits(st, ctx) && UniqueBoneNames(st.bones)
    ensures UniqueBoneNames(VisitChild(directory, st, child, ctx).st.bones)
    decreases child
  {
    if !IsSkipped(child) && IsStructural(child) {
      GroupKeepsBonesUnique(directory, st, child, ctx);
      match GroupStep(directory, st, child, ctx)
      case EntryRaised(_, _) =>
      case Entered(s1, inner) => VisitAllKeepsBonesUnique(directory, s1, child.children, inner);
    }
  }

  // ----- slot names stay unique -----

  lemma AppendNewSlotKeepsUnique(slots: seq<Slot>, s: Slot)
    requires UniqueSlotNames(slots) && !SlotExists(slots, s.name)
    ensures UniqueSlotNames(slots + [s])
  {
  }

  lemma SetAttachmentKeepsUnique(slots: seq<Slot>, i: nat, name: string)
    requires UniqueSlotNames(slots) && i < |slots|
    ensures UniqueSlotNames(slots[i := slots[i].(attachment := Some(name))])
  {
  }

  lemma GroupKeepsSlotsUnique(directory: string, st: State, child: Node, ctx: Ctx)
    requires Fits(st, ctx) && UniqueSlotNames(st.slots)
    ensures UniqueSlotNames(GroupStep(directory, st, child, ctx).st.slots)
  {
    match BoneStep(st, child, ctx)
    case EntryRaised(_, _) =>
    case Entered(s1, c1) =>
      if HasTag(child.name, SlotTag) {
        var s := Slot(StripTag(child.name, SlotTag), ctx.bone, None);
        if !SlotExists(s1.slots, s.name) {
          AppendNewSlotKeepsUnique(s1.slots, s);
        }
      }
  }

  lemma LeafKeepsSlotsUnique(directory: string, st: State, child: Node, ctx: Ctx)
    requires Fits(st, ctx) && UniqueSlotNames(st.slots)
    ensures UniqueSlotNames(LeafStep(directory, st, child, ctx).st.slots)
  {
    var name := StripTag(child.name, MergeTag);
    match ctx.slot
    case NoSlot =>
      if !SlotExists(st.slots, name) {
        AppendNewSlotKeepsUnique(st.slots, Slot(name, ctx.bone, Some(name)));
      }
    case Listed(i) => SetAttachmentKeepsUnique(st.slots, i, name);
    case Orphan(_) =>
  }

  /** A slot is listed only under a name no slot has yet, and setting an
      attachment does not rename a slot, so slot names stay unique. */
  lemma {:induction false} VisitAllKeepsSlotsUnique(directory: string, st: State, kids: seq<Node>, ctx: Ctx)
    requires Fits(st, ctx) && UniqueSlotNames(st.slots)
    ensures UniqueSlotNames(VisitAll(directory, st, kids, ctx).st.slots)
    decreases kids
  {
    if kids != [] {
      VisitChildKeepsSlotsUnique(directory, st, kids[0], ctx);
      match VisitChild(directory, st, kids[0], ctx)
      case Raised(_, _) =>
      case Done(s1) => VisitAllKeepsSlotsUnique(directory, s1, kids[1..], ctx);
    }
  }

  lemma {:induction false} VisitChildKeepsSlotsUnique(directory: string, st: State, child: Node, ctx: Ctx)
    requires Fits(st, ctx) && UniqueSlotNames(st.slots)
    ensures UniqueSlotNames(VisitChild(directory, st, child, ctx).st.slots)
    decreases child
  {
    if !IsSkipped(child) {
      if IsStructural(child) {
        GroupKeepsSlotsUnique(directory, st, child, ctx);
        match GroupStep(directory, st, child, ctx)
        case EntryRaised(_, _) =>
        case Entered(s1, inner) => VisitAllKeepsSlotsUnique(directory, s1, child.children, inner);
      } else {
        LeafKeepsSlotsUnique(directory, st, child, ctx);
      }
    }
  }

  // ----- no dangling bone references -----

  /** Every parent and slot bone named in the state, listed or not, and the
      context's bone, is a bone of the document. */
  predicate Closed(st: State, ctx: Ctx)
  {
    ReferencesClosed(st.bones, st.slots)
    && (forall i :: 0 <= i < |st.orphans| ==> HasBoneNamed(st.bones, st.orphans[i].bone))
    && HasBoneNamed(st.bones, ctx.bone)
  }

  lemma BonesGrowClosed(bones: seq<Bone>, more: seq<Bone>, slots: seq<Slot>, orphans: seq<Slot>)
    requires ReferencesClosed(bones, slots) && bones <= more
    requires forall i :: 0 <= i < |orphans| ==> HasBoneNamed(bones, orphans[i].bone)
    requires forall i :: |bones| <= i < |more| && more[i].Child? ==> HasBoneNamed(more, more[i].parent)
    ensures ReferencesClosed(more, slots)
    ensures forall i :: 0 <= i < |orphans| ==> HasBoneNamed(more, orphans[i].bone)
  {
    forall i | 0 <= i < |more| && more[i].Child? ensures HasBoneNamed(more, more[i].parent) {
      if i < |bones| {
        assert more[i] == bones[i];
        NamedInPrefix(bones, more, bones[i].parent);
      }
    }
    forall i | 0 <= i < |slots| ensures HasBoneNamed(more, slots[i].bone) {
      NamedInPrefix(bones, more, slots[i].bone);
    }
    forall i | 0 <= i < |orphans| ensures HasBoneNamed(more, orphans[i].bone) {
      NamedInPrefix(bones, more, orphans[i].bone);
    }
  }

  lemma BoneStepClosed(st: State, child: Node, ctx: Ctx)
    requires |st.bones| > 0 && Closed(st, ctx)
    ensures var e := BoneStep(st, child, ctx);
      e.Entered? ==> Closed(e.st, e.inner) && HasBoneNamed(e.st.bones, ctx.bone)
  {
    var e := BoneStep(st, child, ctx);
    if e.Entered? && HasTag(child.name, BoneTag) {
      var name := StripTag(child.name, BoneTag);
      if !BoneExists(st.bones, name) {
        var b := Child(name, ctx.bone, CenterX(child.bounds) - ctx.xOffset, FlippedCenterY(child.bounds) - ctx.yOffset);
        assert e.st.bones == st.bones + [b];
        NamedInPrefix(st.bones, e.st.bones, ctx.bone);
        BonesGrowClosed(st.bones, e.st.bones, st.slots, st.orphans);
        assert e.st.bones[|st.bones|].name == name;
      }
    }
  }

  lemma GroupClosed(directory: string, st: State, child: Node, ctx: Ctx)
    requires Fits(st, ctx) && Closed(st, ctx)
    ensures var e := GroupStep(directory, st, child, ctx);
      e.Entered? ==> Closed(e.st, e.inner) && HasBoneNamed(e.st.bones, ctx.bone)
  {
    BoneStepClosed(st, child, ctx);
    match BoneStep(st, child, ctx)
    case EntryRaised(_, _) =>
    case Entered(s1, c1) =>
      var (s2, slot) := SlotStep(s1, child, ctx.bone, ctx.slot);
      if HasTag(child.name, SlotTag) {
        var s := Slot(StripTag(child.name, SlotTag), ctx.bone, None);
        if !SlotExists(s1.slots, s.name) {
          assert s2.slots == s1.slots + [s];
        } else {
          assert s2.orphans == s1.orphans + [s];
        }
      }
      assert Closed(s2, c1.(slot := slot));
  }

  lemma LeafClosed(directory: string, st: State, child: Node, ctx: Ctx)
    requires Fits(st, ctx) && Closed(st, ctx)
    ensures Closed(LeafStep(directory, st, child, ctx).st, ctx)
  {
    var o := LeafStep(directory, st, child, ctx);
    SlotsStayClosed(st.bones, st.slots, o.st.slots);
    SlotsStayClosed(st.bones, st.orphans, o.st.orphans);
  }

  /** No dangling references: every added bone's parent, every slot's bone
      and the context's bone name a bone of the document, before and after
      any traversal. */
  lemma {:induction false} VisitAllClosed(directory: string, st: State, kids: seq<Node>, ctx: Ctx)
    requires Fits(st, ctx) && Closed(st, ctx)
    ensures Closed(VisitAll(directory, st, kids, ctx).st, ctx)
    decreases kids
  {
    if kids != [] {
      VisitChildClosed(directory, st, kids[0], ctx);
      match VisitChild(directory, st, kids[0], ctx)
      case Raised(_, _) =>
      case Done(s1) => VisitAllClosed(directory, s1, kids[1..], ctx);
    }
  }

  lemma {:induction false} VisitChildClosed(directory: string, st: State, child: Node, ctx: Ctx)
    requires Fits(st, ctx) && Closed(st, ctx)
    ensures Closed(VisitChild(directory, st, child, ctx).st, ctx)
    decreases child
  {
    if !IsSkipped(child) {
      if IsStructural(child) {
        GroupClosed(directory, st, child, ctx);
        match GroupStep(directory, st, child, ctx)
        case EntryRaised(_, _) =>
        case Entered(s1, inner) =>
          VisitAllClosed(directory, s1, child.children, inner);
          var s2 := VisitAll(directory, s1, child.children, inner).st;
          VisitAllAdvances(directory, s1, child.children, inner);
          NamedInPrefix(s1.bones, s2.bones, ctx.bone);
      } else {
        LeafClosed(directory, st, child, ctx);
      }
    }
  }

  // ----- skipped children -----

  /** A skipped child contributes nothing: removing it from a child list
      changes neither the document, nor the logs, nor whether the run raises;
      so nothing below it is visited. */
  lemma {:induction false} SkippedChildIsInert(directory: string, st: State, pre: seq<Node>, c: Node, post: seq<Node>, ctx: Ctx)
    requires Fits(st, ctx) && IsSkipped(c)
    ensures VisitAll(directory, st, pre + [c] + post, ctx) == VisitAll(directory, st, pre + post, ctx)
    decreases pre
  {
    if pre == [] {
      assert pre + [c] + post == [c] + post && pre + post == post;
      assert ([c] + post)[1..] == post;
    } else {
      assert (pre + [c] + post)[0] == pre[0] && (pre + post)[0] == pre[0];
      assert (pre + [c] + post)[1..] == pre[1..] + [c] + post;
      assert (pre + post)[1..] == pre[1..] + post;
      match VisitChild(directory, st, pre[0], ctx)
      case Raised(_, _) =>
      case Done(s1) => SkippedChildIsInert(directory, s1, pre[1..], c, post, ctx);
    }
  }

  // ----- saved images follow the file layout -----

  /** The images saved are exactly those of the layout computed from the tree
      alone, in traversal order; a run that raises has saved a prefix of
      them. */
  lemma {:induction false} VisitAllImages(directory: string, st: State, kids: seq<Node>, ctx: Ctx)
    requires Fits(st, ctx)
    ensures var o := VisitAll(directory, st, kids, ctx);
      o.st.images <= st.images + ExpectedImages(directory, kids, ctx.skin)
      && (o.Done? ==> o.st.images == st.images + ExpectedImages(directory, kids, ctx.skin))
    decreases kids
  {
    if kids != [] {
      var first := ExpectedImagesOf(directory, kids[0], ctx.skin);
      var rest := ExpectedImages(directory, kids[1..], ctx.skin);
      VisitChildImages(directory, st, kids[0], ctx);
      match VisitChild(directory, st, kids[0], ctx)
      case Raised(_, s) =>
        assert s.images <= st.images + first;
        assert st.images + first <= st.images + first + rest;
      case Done(s1) =>
        VisitAllImages(directory, s1, kids[1..], ctx);
        assert st.images + first + rest == s1.images + rest;
    }
  }

  lemma {:induction false} VisitChildImages(directory: string, st: State, child: Node, ctx: Ctx)
    requires Fits(st, ctx)
    ensures var o := VisitChild(directory, st, child, ctx);
      o.st.images <= st.images + ExpectedImagesOf(directory, child, ctx.skin)
      && (o.Done? ==> o.st.images == st.images + ExpectedImagesOf(directory, child, ctx.skin))
    decreases child
  {
    if !IsSkipped(child) && IsStructural(child) {
      match GroupStep(directory, st, child, ctx)
      case EntryRaised(_, s) =>
      case Entered(s1, inner) =>
        assert inner.skin == if HasTag(child.name, SkinTag) then StripTag(child.name, SkinTag) else ctx.skin;
        VisitAllImages(directory, s1, child.children, inner);
    }
  }

  // ----- the seeded default skin (finding) -----

  /** Every skin record has an "attachments" map. */
  predicate AllSkinsHaveMaps(st: State)
  {
    forall i :: 0 <= i < |st.skins| ==> st.skins[i].attachments.Some?
  }

  lemma GroupKeepsMaps(directory: string, st: State, child: Node, ctx: Ctx)
    requires Fits(st, ctx) && AllSkinsHaveMaps(st)
    ensures AllSkinsHaveMaps(GroupStep(directory, st, child, ctx).st)
  {
  }

  lemma LeafKeepsMaps(directory: string, st: State, child: Node, ctx: Ctx)
    requires Fits(st, ctx) && AllSkinsHaveMaps(st)
    ensures var o := LeafStep(directory, st, child, ctx);
      o.Done? && AllSkinsHaveMaps(o.st)
  {
  }

  /** With every skin record carrying its map, the traversal never misses
      the "attachments" key: the only key it can miss is the root bone's "x",
      when a bone group's clean name is "root". */
  lemma {:induction false} VisitAllOnlyMissesRootX(directory: string, st: State, kids: seq<Node>, ctx: Ctx)
    requires Fits(st, ctx) && AllSkinsHaveMaps(st)
    ensures var o := VisitAll(directory, st, kids, ctx);
      AllSkinsHaveMaps(o.st) && (o.Raised? ==> o.missingKey == "x")
    decreases kids
  {
    if kids != [] {
      VisitChildOnlyMissesRootX(directory, st, kids[0], ctx);
      match VisitChild(directory, st, kids[0], ctx)
      case Raised(_, _) =>
      case Done(s1) => VisitAllOnlyMissesRootX(directory, s1, kids[1..], ctx);
    }
  }

  lemma {:induction false} VisitChildOnlyMissesRootX(directory: string, st: State, child: Node, ctx: Ctx)
    requires Fits(st, ctx) && AllSkinsHaveMaps(st)
    ensures var o := VisitChild(directory, st, child, ctx);
      AllSkinsHaveMaps(o.st) && (o.Raised? ==> o.missingKey == "x")
    decreases child
  {
    if !IsSkipped(child) {
      if IsStructural(child) {
        GroupKeepsMaps(directory, st, child, ctx);
        match GroupStep(directory, st, child, ctx)
        case EntryRaised(_, _) =>
        case Entered(s1, inner) => VisitAllOnlyMissesRootX(directory, s1, child.children, inner);
      } else {
        LeafKeepsMaps(directory, st, child, ctx);
      }
    }
  }

  /** With the corrected seed a run never fails on a missing "attachments"
      key. */
  lemma SeededRunNeverMissesAttachments(host: HostDocument, directory: string)
    ensures var r := Run(Some(host), directory);
      r.Failed? ==> r.missingKey == "x"
  {
    var (x0, y0) := Origin(host.horizontalGuides, host.verticalGuides);
    VisitAllOnlyMissesRootX(directory, InitialState(), host.root.children, Ctx(RootBoneName, x0, y0, NoSlot, DefaultSkinName));
  }

  /** A run from the corrected seed that gets a document and a directory
      either fails on "x" or writes a skeleton whose first bone is the root,
      whose bone names and listed slot names are unique, whose references
      name only its own bones and whose first skin is the default one; its
      images are those of the file layout followed by the skeleton file. */
  lemma RunShape(host: HostDocument, directory: string)
    requires directory != ""
    ensures var r := Run(Some(host), directory);
      (r.Exported? || (r.Failed? && r.missingKey == "x"))
      && (r.Exported? ==>
            |r.json.bones| > 0 && r.json.bones[0] == Root(RootBoneName)
            && UniqueBoneNames(r.json.bones) && UniqueSlotNames(r.json.slots)
            && ReferencesClosed(r.json.bones, r.json.slots)
            && |r.json.skins| > 0 && r.json.skins[0].name == DefaultSkinName
            && r.images == ExpectedImages(directory, host.root.children, DefaultSkinName) + [directory + "/spine.json"])
  {
    var (x0, y0) := Origin(host.horizontalGuides, host.verticalGuides);
    var ctx := Ctx(RootBoneName, x0, y0, NoSlot, DefaultSkinName);
    var st := InitialState();
    var kids := host.root.children;
    assert HasBoneNamed(st.bones, RootBoneName) by { assert st.bones[0].name == RootBoneName; }
    SeededRunNeverMissesAttachments(host, directory);
    VisitAllAdvances(directory, st, kids, ctx);
    VisitAllKeepsBonesUnique(directory, st, kids, ctx);
    VisitAllKeepsSlotsUnique(directory, st, kids, ctx);
    VisitAllClosed(directory, st, kids, ctx);
    VisitAllImages(directory, st, kids, ctx);
  }

  /** The first skin record is the default one with no "attachments" key,
      as the seed as written leaves it. */
  predicate DefaultSkinUnmapped(st: State)
  {
    |st.skins| > 0 && st.skins[0] == SkinEntry(DefaultSkinName, None)
  }

  /** As written, an image exported in the default skin (outside skin
      groups, or inside one named "default") always raises KeyError
      "attachments", after its file was saved. */
  lemma DefaultLeafRaisesAsWritten(directory: string, st: State, child: Node, ctx: Ctx)
    requires Fits(st, ctx) && DefaultSkinUnmapped(st) && ctx.skin == DefaultSkinName
    requires !IsSkipped(child) && !IsStructural(child)
    ensures var o := VisitChild(directory, st, child, ctx);
      o.Raised? && o.missingKey == "attachments"
      && o.st.images == st.images + [ImagePath(directory, DefaultSkinName, StripTag(child.name, MergeTag))]
  {
  }

  /** The default record stays without its map for the whole traversal:
      skin groups only append records and no leaf can fill the first one. */
  lemma {:induction false} VisitAllKeepsDefaultUnmapped(directory: string, st: State, kids: seq<Node>, ctx: Ctx)
    requires Fits(st, ctx) && DefaultSkinUnmapped(st)
    ensures DefaultSkinUnmapped(VisitAll(directory, st, kids, ctx).st)
    decreases kids
  {
    if kids != [] {
      VisitChildKeepsDefaultUnmapped(directory, st, kids[0], ctx);
      match VisitChild(directory, st, kids[0], ctx)
      case Raised(_, _) =>
      case Done(s1) => VisitAllKeepsDefaultUnmapped(directory, s1, kids[1..], ctx);
    }
  }

  lemma {:induction false} VisitChildKeepsDefaultUnmapped(directory: string, st: State, child: Node, ctx: Ctx)
    requires Fits(st, ctx) && DefaultSkinUnmapped(st)
    ensures DefaultSkinUnmapped(VisitChild(directory, st, child, ctx).st)
    decreases child
  {
    if !IsSkipped(child) {
      if IsStructural(child) {
        match GroupStep(directory, st, child, ctx)
        case EntryRaised(_, _) =>
        case Entered(s1, inner) => VisitAllKeepsDefaultUnmapped(directory, s1, child.children, inner);
      }
    }
  }

  /** Children that are all skipped contribute nothing. */
  lemma {:induction false} SkippedPrefixIsInert(directory: string, st: State, pre: seq<Node>, rest: seq<Node>, ctx: Ctx)
    requires Fits(st, ctx) && forall i :: 0 <= i < |pre| ==> IsSkipped(pre[i])
    ensures VisitAll(directory, st, pre + rest, ctx) == VisitAll(directory, st, rest, ctx)
    decreases pre
  {
    if pre != [] {
      assert (pre + rest)[0] == pre[0] && (pre + rest)[1..] == pre[1..] + rest;
      assert VisitChild(directory, st, pre[0], ctx) == Done(st);
      SkippedPrefixIsInert(directory, st, pre[1..], rest, ctx);
    } else {
      assert pre + rest == rest;
    }
  }

  /** The run as written fails when the first child of the document's root
      that is not skipped is an image: that image is saved, then KeyError
      "attachments" ends the run before the skeleton file is written. */
  lemma AsWrittenRunFails(host: HostDocument, directory: string, pre: seq<Node>, leaf: Node, post: seq<Node>)
    requires directory != "" && host.root.children == pre + [leaf] + post
    requires forall i :: 0 <= i < |pre| ==> IsSkipped(pre[i])
    requires !IsSkipped(leaf) && !IsStructural(leaf)
    ensures RunAsWritten(Some(host), directory)
      == Failed("attachments", [ImagePath(directory, DefaultSkinName, StripTag(leaf.name, MergeTag))], [])
  {
    var (x0, y0) := Origin(host.horizontalGuides, host.verticalGuides);
    var ctx := Ctx(RootBoneName, x0, y0, NoSlot, DefaultSkinName);
    var seed := InitialStateAsWritten();
    assert pre + [leaf] + post == pre + ([leaf] + post);
    SkippedPrefixIsInert(directory, seed, pre, [leaf] + post, ctx);
    assert ([leaf] + post)[0] == leaf;
    DefaultLeafRaisesAsWritten(directory, seed, leaf, ctx);
  }

  /** With the corrected seed, an image visited first under the root is
      recorded in the default skin: a slot named after it, bound to the root
      bone and showing it, and its attachment under that slot. */
  lemma DefaultLeafRecorded(directory: string, leaf: Node, x0: real, y0: real)
    requires !IsSkipped(leaf) && !IsStructural(leaf)
    ensures var name := StripTag(leaf.name, MergeTag);
      var ctx := Ctx(RootBoneName, x0, y0, NoSlot, DefaultSkinName);
      VisitChild(directory, InitialState(), leaf, ctx)
      == Done(State([Root(RootBoneName)], [Slot(name, RootBoneName, Some(name))], [],
                    [SkinEntry(DefaultSkinName, Some(map[name := map[name := Placement(leaf, name, ctx.skin, ctx.xOffset, ctx.yOffset)]]))],
                    [ImagePath(directory, DefaultSkinName, name)], []))
  {
  }

  // ----- one group or leaf at a time -----

  /** A bone group with a new clean name adds one bone, parented to the
      current bone and placed at the centre of its bounds relative to the
      current offsets; its children are placed relative to that centre. */
  lemma NewBone(directory: string, st: State, child: Node, ctx: Ctx)
    requires Fits(st, ctx) && HasTag(child.name, BoneTag)
    requires !HasBoneNamed(st.bones, StripTag(child.name, BoneTag))
    ensures var name := StripTag(child.name, BoneTag);
      var e := GroupStep(directory, st, child, ctx);
      e.Entered?
      && e.st.bones == st.bones + [Child(name, ctx.bone, CenterX(child.bounds) - ctx.xOffset,
                                         FlippedCenterY(child.bounds) - ctx.yOffset)]
      && e.inner.bone == name
      && e.inner.xOffset == CenterX(child.bounds) && e.inner.yOffset == FlippedCenterY(child.bounds)
  {
  }

  /** A bone group whose clean name is taken adds nothing; its children are
      offset by the stored bone's coordinates from the current offsets, or
      the export raises when the stored bone is the seeded root. */
  lemma KnownBone(directory: string, st: State, child: Node, ctx: Ctx)
    requires Fits(st, ctx) && HasTag(child.name, BoneTag)
    requires HasBoneNamed(st.bones, StripTag(child.name, BoneTag))
    ensures var name := StripTag(child.name, BoneTag);
      var stored := GetBone(st.bones, name);
      var e := GroupStep(directory, st, child, ctx);
      e.st.bones == st.bones
      && (stored.Root? ==> e == EntryRaised("x", st))
      && (stored.Child? ==>
            e.Entered? && e.inner.bone == name
            && e.inner.xOffset == ctx.xOffset + stored.x && e.inner.yOffset == ctx.yOffset + stored.y)
  {
  }

  /** A slot group binds its slot to the enclosing bone, even when the same
      group is also a bone group, with no attachment; the slot is listed only
      when its name is new, and is otherwise kept out of the document. */
  lemma SlotGroup(directory: string, st: State, child: Node, ctx: Ctx)
    requires Fits(st, ctx) && HasTag(child.name, SlotTag)
    ensures var s := Slot(StripTag(child.name, SlotTag), ctx.bone, None);
      var e := GroupStep(directory, st, child, ctx);
      e.Entered? ==>
        (!SlotExists(st.slots, s.name) ==> e.st.slots == st.slots + [s] && e.inner.slot == Listed(|st.slots|))
        && (SlotExists(st.slots, s.name) ==>
              e.st.slots == st.slots && e.inner.slot.Orphan?
              && e.st.orphans[e.inner.slot.index] == s)
  {
  }

  /** A skin group always appends a new skin record, even under a name
      already used, and makes sure its directory exists. */
  lemma SkinGroup(directory: string, st: State, child: Node, ctx: Ctx)
    requires Fits(st, ctx) && HasTag(child.name, SkinTag)
    ensures var name := StripTag(child.name, SkinTag);
      var e := GroupStep(directory, st, child, ctx);
      e.Entered? ==>
        e.st.skins == st.skins + [SkinEntry(name, Some(map[]))] && e.inner.skin == name
        && SkinDirectory(directory, name) in e.st.directories
  {
  }

  /** The skins after a leaf whose attachment goes under `slotName`: the
      record `getSkin` picks gets the attachment, and the step raises
      exactly when that record has no "attachments" map. */
  predicate LeafRecorded(st: State, o: Outcome, child: Node, ctx: Ctx, slotName: string)
    requires |st.skins| > 0
  {
    var name := StripTag(child.name, MergeTag);
    var k := SkinIndex(st.skins, ctx.skin);
    (o.Raised? <==> st.skins[k].attachments.None?)
    && (o.Raised? ==> o.missingKey == "attachments" && o.st.skins == st.skins)
    && (o.Done? ==>
          o.st.skins == st.skins[k := SkinEntry(st.skins[k].name,
                                               Some(RecordAttachment(st.skins[k].attachments.value, slotName, name,
                                                                     Placement(child, name, ctx.skin, ctx.xOffset, ctx.yOffset))))])
  }

  /** An exported leaf outside any slot group lists a slot named after it
      on the current bone, showing it, unless a slot of that name is already
      listed; its attachment goes under that name in the record `getSkin`
      picks, or the step raises when that record has no map. */
  lemma LeafWithoutSlot(directory: string, st: State, child: Node, ctx: Ctx)
    requires Fits(st, ctx) && ctx.slot == NoSlot
    ensures var name := StripTag(child.name, MergeTag);
      var o := LeafStep(directory, st, child, ctx);
      o.st.slots == (if SlotExists(st.slots, name) then st.slots else st.slots + [Slot(name, ctx.bone, Some(name))])
      && o.st.orphans == st.orphans
      && LeafRecorded(st, o, child, ctx, name)
  {
  }

  /** An exported leaf inside a listed slot group shows in that slot only if
      the slot showed nothing yet; its attachment goes under the slot's name
      in the record `getSkin` picks, or the step raises when that record has
      no map. */
  lemma LeafInSlot(directory: string, st: State, child: Node, ctx: Ctx)
    requires Fits(st, ctx) && ctx.slot.Listed?
    ensures var name := StripTag(child.name, MergeTag);
      var i := ctx.slot.index;
      var o := LeafStep(directory, st, child, ctx);
      o.st.slots == st.slots[i := st.slots[i].(attachment := if IsUnset(st.slots[i].attachment) then Some(name) else st.slots[i].attachment)]
      && o.st.orphans == st.orphans
      && LeafRecorded(st, o, child, ctx, st.slots[i].name)
  {
  }

  /** An exported leaf inside a slot group whose slot was never listed sets
      that record's attachment only if unset, leaves the document's slots
      alone, and files its attachment under the unlisted slot's name. */
  lemma LeafInOrphanSlot(directory: string, st: State, child: Node, ctx: Ctx)
    requires Fits(st, ctx) && ctx.slot.Orphan?
    ensures var name := StripTag(child.name, MergeTag);
      var i := ctx.slot.index;
      var o := LeafStep(directory, st, child, ctx);
      o.st.slots == st.slots
      && o.st.orphans == st.orphans[i := st.orphans[i].(attachment := if IsUnset(st.orphans[i].attachment) then Some(name) else st.orphans[i].attachment)]
      && LeafRecorded(st, o, child, ctx, st.orphans[i].name)
  {
  }

  // ----- names that repeat -----

  /** A skin group named "default" gives the document a second skin record
      called "default"; `getSkin` keeps finding the first one. */
  lemma DefaultSkinGroupDuplicates(directory: string, st: State, child: Node, ctx: Ctx)
    requires Fits(st, ctx) && st.skins[0].name == DefaultSkinName
    requires child.name == DefaultSkinName + " " + Token(SkinTag)
    requires !HasTag(child.name, BoneTag) && !HasTag(child.name, SlotTag)
    ensures var e := GroupStep(directory, st, child, ctx);
      e.Entered? && e.st.skins[0].name == DefaultSkinName && e.st.skins[|e.st.skins| - 1].name == DefaultSkinName
      && |e.st.skins| > 1 && SkinIndex(e.st.skins, DefaultSkinName) == 0
  {
    DefaultSkinTagged();
    var e := GroupStep(directory, st, child, ctx);
    assert e.st.skins == st.skins + [SkinEntry(DefaultSkinName, Some(map[]))];
  }

  /** "default (skin)" is a skin group whose clean name is "default". */
  lemma DefaultSkinTagged()
    ensures HasTag(DefaultSkinName + " " + Token(SkinTag), SkinTag)
    ensures StripTag(DefaultSkinName + " " + Token(SkinTag), SkinTag) == DefaultSkinName
  {
    TrimStartOfTrimmed(DefaultSkinName);
    TrimEndOfTrimmed(DefaultSkinName);
    TaggedCleanName(DefaultSkinName, SkinTag);
  }

  // ----- a whole run -----

  /** A document whose root holds one visible, untagged image layer, and no
      guides: the root bone only, one slot named after the layer on the root
      bone showing it, its attachment at the centre of its bounds in the
      default skin, and its image and the skeleton file in the output
      directory. */
  lemma SingleLayerRun(directory: string, leaf: Node, root: Node)
    requires directory != "" && root.children == [leaf]
    requires !IsSkipped(leaf) && leaf.children == []
    requires !HasTag(leaf.name, MergeTag) && Trim(leaf.name) == leaf.name
    ensures var n := leaf.name;
      var r := leaf.bounds;
      Run(Some(HostDocument(root, [], [])), directory)
      == Exported(SpineJson(directory, [Root(RootBoneName)], [Slot(n, RootBoneName, Some(n))],
                            [SkinEntry(DefaultSkinName, Some(map[n := map[n := Attachment(n, CenterX(r), FlippedCenterY(r), 0, r.width, r.height)]]))]),
                  [directory + "/" + n + ".png", directory + "/spine.json"], [])
  {
    var n := leaf.name;
    RemoveTagWithoutTag(n, MergeTag);
    assert StripTag(n, MergeTag) == n;
    var ctx := Ctx(RootBoneName, 0.0, 0.0, NoSlot, DefaultSkinName);
    DefaultLeafRecorded(directory, leaf, 0.0, 0.0);
    var st := VisitChild(directory, InitialState(), leaf, ctx).st;
    assert VisitAll(directory, InitialState(), root.children, ctx) == VisitAll(directory, st, [], ctx) by {
      assert root.children[0] == leaf && root.children[1..] == [];
    }
    assert ImagePath(directory, DefaultSkinName, n) == directory + "/" + n + ".png";
    assert Placement(leaf, n, ctx.skin, ctx.xOffset, ctx.yOffset) == Attachment(n, CenterX(leaf.bounds), FlippedCenterY(leaf.bounds), 0, leaf.bounds.width, leaf.bounds.height);
  }
}

# Krita to Spine exporter, modelled in Dafny

The exporter walks a Krita document's layer tree and builds a Spine
skeleton: bones, slots, skins holding image attachments, and one PNG per
exported layer. A layer's role is given by a bracketed tag in its name, matched
without regard to case:

- `(bone)`/`[bone]`;
- `(slot)`/`[slot]`;
- `(skin)`/`[skin]`;
- `(merge)`/`[merge]`, which exports a group as a single image.

Two variants of the exporter share this design. Both are modelled.

- **SpineExport/SpineExport.py** (module `SpineExportDedup`) reuses a bone or a
  slot whose name is already taken. Its skins are a list searched by name,
  falling back to the first skin. It starts at the origin marked by the
  document's first guides. A missing dictionary key stops the run with the
  state reached so far (Python's `KeyError`).
- **spineExport/SpineExport.py** (module `SpineExportPlain`) appends a bone for
  every bone group and a slot for every slot group and every leaf that is not
  inside a slot group. Its skins are a dictionary keyed by name. It starts at
  (0, 0).

Shared modules:

- `Tags`: the four patterns, `search`, `sub('', …)` as one non-rescanning
  left-to-right pass, and `strip()`.
- `Layers`: layer nodes and the skip rule, geometry, the file layout, and
  directory creation.
- `Skeleton`: bones, slots, attachments, and the nested attachment map of a
  skin.

Each variant has two layers:

- The traversal (`_export`) is specified by the mutually recursive functions
  `VisitAll`/`VisitChild` on an immutable `State`.
- The class `Exporter` holds the same collections as fields. Its recursive
  method `Export` loops over the children. Its `ensures` ties the new state to
  `VisitAll` of the old one, and `ExportDocument` is proved equal to the
  function `Run`.

The properties are proved about the functions, in the `…Props` modules.

Inputs the host supplies go in as parameters:

- the layer tree (`Node`);
- the document's guides;
- the directory the user picked, where the empty string means the chooser was
  cancelled.

File effects are logs in the state:

- `images` holds the paths of saved images, then `spine.json`;
- `directories` holds the directories made.

## Model

| member | source | states |
|---|---|---|
| Tags.LetterMatches | SpineExport/SpineExport.py:17-20 | a name character matches a pattern letter when it is that letter, its ASCII capital, or one of the characters the engine's case-insensitive mode folds onto `s`, `k` or `i` |
| Tags.HasTag | SpineExport/SpineExport.py:118 | `search` succeeds exactly when some position of the name starts a whole token of either bracket style (its meaning is pinned down by `Tags.NoBracketNoTag` and `Tags.AnnotatedNameRoundTrip`) |
| Tags.IsSpace | SpineExport/SpineExport.py:125 | the characters `strip()` removes are those Python counts as whitespace |
| Tags.TrimStart | SpineExport/SpineExport.py:125 | the leading half of `strip()` (its shape is stated by `Tags.TrimStartShape`) |
| Tags.TrimEnd | SpineExport/SpineExport.py:125 | the trailing half of `strip()` (its shape is stated by `Tags.TrimEndShape`) |
| Tags.Trim | SpineExport/SpineExport.py:125 | `strip()` (its shape is stated by `Tags.TrimShape`, its idempotence by `Tags.TrimIdempotent`) |
| Tags.StripTag | SpineExport/SpineExport.py:125 | the clean name, `sub('', name)` then `strip()` (its round trip is `Tags.AnnotatedNameRoundTrip`) |
| Tags.RemoveTag | SpineExport/SpineExport.py:125 | deleting tokens never lengthens a name |
| Tags.RemoveTagShortens | SpineExport/SpineExport.py:124-125 | a name the pattern matches loses at least one whole token when tags are removed |
| Tags.RemoveTagWithoutTag | SpineExport/SpineExport.py:125 | a name the pattern does not match comes out of `sub` unchanged |
| Tags.RemoveTagCopiesPrefix | SpineExport/SpineExport.py:125 | characters before the first match are copied verbatim |
| Tags.TrimStartShape | SpineExport/SpineExport.py:125 | `strip` drops a leading run of whitespace only, and the rest does not start with whitespace |
| Tags.TrimEndShape | SpineExport/SpineExport.py:125 | `strip` drops a trailing run of whitespace only, and the rest does not end with whitespace |
| Tags.TrimShape | SpineExport/SpineExport.py:125 | `strip()` keeps a contiguous piece of the name, removes only whitespace around it, and the piece neither starts nor ends with whitespace |
| Tags.TrimIdempotent | SpineExport/SpineExport.py:125 | stripping twice equals stripping once |
| Tags.StripTagIdempotentWhenClean | SpineExport/SpineExport.py:125 | cleaning a name is idempotent when the cleaned name no longer matches |
| Tags.StripTagNotIdempotent | SpineExport/SpineExport.py:125 | for every tag, `(` + `(tag)` + `tag)` cleans to `(tag)`, and cleaning again gives the empty name |
| Tags.ClosedUpTokenKept | SpineExport/SpineExport.py:125 | the deletion pass does not rescan, so text that closes up into a token is left in place |
| Tags.AnnotatedNameRoundTrip | SpineExport/SpineExport.py:124-125 | appending " (tag)" to a tag-free name makes the pattern match, and cleaning gives back the name stripped |
| Tags.NoBracketNoTag | SpineExport/SpineExport.py:17-20 | a name with no `(` or `[` matches no pattern |
| Tags.TaggedCleanName | SpineExport/SpineExport.py:124-125 | a clean bracket-free name followed by " (tag)" is tagged and cleans back to itself |
| Layers.IsSkipped | SpineExport/SpineExport.py:108-115 | a selection mask, an invisible layer, or a name holding the literal "(ignore)" is passed over |
| Layers.IsStructural | SpineExport/SpineExport.py:117-118 | a child with children and no merge tag is descended into; every other child that is not skipped is saved as one image |
| Layers.CenterX | SpineExport/SpineExport.py:127 | the horizontal centre of the bounds, `left + width / 2` |
| Layers.FlippedCenterY | SpineExport/SpineExport.py:128 | the vertical centre in y-up coordinates, `-bottom + height / 2` |
| Layers.SaveDirectory | SpineExport/SpineExport.py:168-170 | images of the default skin go into the chosen directory, those of any other skin into its sub-directory |
| Layers.ImagePath | SpineExport/SpineExport.py:171-172 | an image is saved as `<save directory>/<clean name>.png` |
| Layers.AttachmentName | SpineExport/SpineExport.py:191-193 | an attachment's image name is prefixed with `<skin>/` outside the default skin |
| Layers.SkinDirectory | SpineExport/SpineExport.py:87-89 | a skin group's directory is `<directory>/<skin>` |
| Layers.EnsureDirectory | SpineExport/SpineExport.py:87-89 | after `createDirectoy` the path exists; the log changes only when the path was missing, and then only that path is added |
| Skeleton.Placement | SpineExport/SpineExport.py:196-203 | an attachment carries the skin-relative image name, no rotation and the layer's size; adding back the offsets gives the centre of the bounds, with y pointing up |
| Skeleton.RecordAttachment | SpineExport/SpineExport.py:194-196 | the slot's map is created on first use; the new attachment is stored under slot and name, and every other entry is unchanged |
| Skeleton.SlotsAdvanceTransitive | SpineExport/SpineExport.py:185-186 | the "slots only advance" relation composes across steps |
| Skeleton.SlotsStayClosed | SpineExport/SpineExport.py:175-186 | references stay closed when slots advance and new slots sit on known bones (used by both variants) |
| Skeleton.NamedInPrefix | SpineExport/SpineExport.py:129-139 | a bone that is named stays named after bones are appended (used by both variants) |
| SpineExportDedup.InitialState | SpineExport/SpineExport.py:41-50 | the seeded document with the default skin record given an empty "attachments" map (corrected; `SpineExportDedupProps.SeededRunNeverMissesAttachments`) |
| SpineExportDedup.InitialStateAsWritten | SpineExport/SpineExport.py:41-50 | the seeded document as written: the root bone, no slots, one default skin record without an "attachments" map |
| SpineExportDedup.Origin | SpineExport/SpineExport.py:91-99 | the origin is the first vertical guide and the negated first horizontal guide when both lists are non-empty, else (0, 0) |
| SpineExportDedup.RunFrom | SpineExport/SpineExport.py:29-59 | a run from a given seed: no document, a cancelled chooser, a traversal stopped by a key, or the skeleton written after the images |
| SpineExportDedup.Run | SpineExport/SpineExport.py:29-59 | the run from the corrected seed |
| SpineExportDedup.RunAsWritten | SpineExport/SpineExport.py:29-59 | the run exactly as written, from the seed of line 45 |
| SpineExportDedup.FindBone | SpineExport/SpineExport.py:70-72 | the index of the first bone with the name, or the length when there is none |
| SpineExportDedup.BoneExists | SpineExport/SpineExport.py:75-79 | `isBoneExist` is true exactly when some bone has the name |
| SpineExportDedup.GetBone | SpineExport/SpineExport.py:69-73 | `getBone` returns the first bone with the name, or bone 0 when none matches |
| SpineExportDedup.SlotExists | SpineExport/SpineExport.py:81-85 | `isSlotExist` is true exactly when some slot has the name |
| SpineExportDedup.FindSkin | SpineExport/SpineExport.py:64-66 | the scan from a record on finds the first record there with the name, or runs to the end when there is none |
| SpineExportDedup.SkinIndex | SpineExport/SpineExport.py:63-67 | `getSkin` picks the first record with the name, or record 0 when none matches |
| SpineExportDedup.BoneStep | SpineExport/SpineExport.py:124-146 | a bone tag touches only the bones, never shrinks them, and keeps the slot and skin contexts |
| SpineExportDedup.SlotStep | SpineExport/SpineExport.py:147-155 | a slot tag touches only slots and unlisted slot records, and hands on a slot reference that is valid |
| SpineExportDedup.SkinStep | SpineExport/SpineExport.py:157-163 | a skin tag touches only skins and directories |
| SpineExportDedup.GroupStep | SpineExport/SpineExport.py:117-166 | entering a group only grows the collections, saves no image, and gives a context that fits the new state |
| SpineExportDedup.SlotForLeaf | SpineExport/SpineExport.py:175-186 | settling a leaf's slot keeps existing slots' names and bones and any attachment already set; a slot it adds sits on the current bone |
| SpineExportDedup.LeafStep | SpineExport/SpineExport.py:168-203 | a leaf saves exactly its image path and never touches bones or directories; slots only advance |
| SpineExportDedup.VisitChild | SpineExport/SpineExport.py:108-166 | visiting one child only grows the collections |
| SpineExportDedup.VisitAll | SpineExport/SpineExport.py:106-107 | visiting the children only grows the collections |
| SpineExportDedup.Exporter.constructor | SpineExport/SpineExport.py:41-50 | the seeded document, with the default skin record given its attachments map (corrected) |
| SpineExportDedup.Exporter.AsWritten | SpineExport/SpineExport.py:41-50 | the seeded document as written, whose default skin record has no "attachments" key |
| SpineExportDedup.Exporter.SetRootPosition | SpineExport/SpineExport.py:91-99 | the origin is the first vertical guide and the negated first horizontal guide when both lists are non-empty, else (0, 0) |
| SpineExportDedup.Exporter.CreateDirectory | SpineExport/SpineExport.py:87-89 | the directory log becomes `EnsureDirectory` of the skin's directory |
| SpineExportDedup.Exporter.EnterBone | SpineExport/SpineExport.py:124-146 | the new bones and context or the raised key are exactly those of `BoneStep` |
| SpineExportDedup.Exporter.EnterSlot | SpineExport/SpineExport.py:147-155 | the new slots and slot context are exactly those of `SlotStep` |
| SpineExportDedup.Exporter.EnterSkin | SpineExport/SpineExport.py:157-163 | the new skins, directories and skin are exactly those of `SkinStep` |
| SpineExportDedup.Exporter.EnterGroup | SpineExport/SpineExport.py:117-163 | the new state and child context or the raised key are exactly those of `GroupStep` |
| SpineExportDedup.Exporter.ExportLeaf | SpineExport/SpineExport.py:168-203 | the new state and the raised key are exactly those of `LeafStep` |
| SpineExportDedup.Exporter.Export | SpineExport/SpineExport.py:106-166 | the field updates of the loop over the children, and where it stops on a raise, are exactly those of `VisitAll` |
| SpineExportDedup.ExportDocument | SpineExport/SpineExport.py:29-59 | the run's result (no document, aborted, failed with a key, or the written skeleton and file log) is exactly `Run` |
| SpineExportDedup.ExportDocumentAsWritten | SpineExport/SpineExport.py:29-59 | the run from the seed as written is exactly `RunAsWritten` |
| SpineExportDedup.ExportSeeded | SpineExport/SpineExport.py:52-59 | from a seeded exporter, setting the origin, traversing and writing the skeleton give exactly `RunFrom` of the seed |
| SpineExportDedupProps.VisitAllAdvances | SpineExport/SpineExport.py:106-203 | the traversal only appends bones, skins and log entries; slots keep their name and bone, and an attachment changes only from unset to set |
| SpineExportDedupProps.VisitChildAdvances | SpineExport/SpineExport.py:108-203 | the same for one child |
| SpineExportDedupProps.AdvancesTransitive | SpineExport/SpineExport.py:106-107 | the relation composes across siblings |
| SpineExportDedupProps.GroupAdvances | SpineExport/SpineExport.py:117-163 | entering a group advances the state |
| SpineExportDedupProps.LeafAdvances | SpineExport/SpineExport.py:168-203 | exporting a leaf advances the state |
| SpineExportDedupProps.SlotRecordAdvances | SpineExport/SpineExport.py:185-186 | setting an unset attachment advances the slots |
| SpineExportDedupProps.VisitAllKeepsBonesUnique | SpineExport/SpineExport.py:138-139 | when bone names start unique, they stay unique through the traversal |
| SpineExportDedupProps.VisitChildKeepsBonesUnique | SpineExport/SpineExport.py:138-139 | the same for one child |
| SpineExportDedupProps.GroupKeepsBonesUnique | SpineExport/SpineExport.py:138-139 | a bone is added only under a name no bone has |
| SpineExportDedupProps.VisitAllKeepsSlotsUnique | SpineExport/SpineExport.py:154-155 | when slot names start unique, they stay unique through the traversal |
| SpineExportDedupProps.VisitChildKeepsSlotsUnique | SpineExport/SpineExport.py:182-183 | the same for one child |
| SpineExportDedupProps.GroupKeepsSlotsUnique | SpineExport/SpineExport.py:154-155 | a slot group lists its slot only under a new name |
| SpineExportDedupProps.LeafKeepsSlotsUnique | SpineExport/SpineExport.py:182-186 | a leaf lists a slot only under a new name, and setting an attachment keeps names |
| SpineExportDedupProps.AppendNewSlotKeepsUnique | SpineExport/SpineExport.py:154-155 | appending a slot whose name is absent keeps names unique |
| SpineExportDedupProps.SetAttachmentKeepsUnique | SpineExport/SpineExport.py:185-186 | setting an attachment keeps names unique |
| SpineExportDedupProps.VisitAllClosed | SpineExport/SpineExport.py:129-155 | every bone's parent and every slot's bone, listed or not, names a bone of the document |
| SpineExportDedupProps.VisitChildClosed | SpineExport/SpineExport.py:129-155 | the same for one child |
| SpineExportDedupProps.BoneStepClosed | SpineExport/SpineExport.py:129-146 | a bone tag's new bone has a known parent, and the bone the children get is known |
| SpineExportDedupProps.GroupClosed | SpineExport/SpineExport.py:124-163 | entering a group keeps references closed, listed slot or not, and the children's bone is known |
| SpineExportDedupProps.LeafClosed | SpineExport/SpineExport.py:176-183 | a leaf's new slot sits on a known bone |
| SpineExportDedupProps.BonesGrowClosed | SpineExport/SpineExport.py:139 | references stay closed when bones are appended with known parents |
| SpineExportDedupProps.SkippedChildIsInert | SpineExport/SpineExport.py:108-115 | a selection mask, an invisible layer or an "(ignore)" name contributes nothing: dropping it from a child list changes no outcome |
| SpineExportDedupProps.VisitAllImages | SpineExport/SpineExport.py:168-173 | saved images are those of the tree-only file layout in order; a raise leaves a prefix |
| SpineExportDedupProps.VisitChildImages | SpineExport/SpineExport.py:168-173 | the same for one child |
| SpineExportDedupProps.VisitAllOnlyMissesRootX | SpineExport/SpineExport.py:143-145 | when every skin record has its map, the only key the traversal can miss is "x" (a bone group cleaning to "root") |
| SpineExportDedupProps.VisitChildOnlyMissesRootX | SpineExport/SpineExport.py:143-145 | the same for one child |
| SpineExportDedupProps.GroupKeepsMaps | SpineExport/SpineExport.py:159-162 | new skin records carry an attachments map |
| SpineExportDedupProps.LeafKeepsMaps | SpineExport/SpineExport.py:194-196 | with maps present, a leaf never raises and keeps them |
| SpineExportDedupProps.SeededRunNeverMissesAttachments | SpineExport/SpineExport.py:45 | with the corrected seed, a run fails only on "x" |
| SpineExportDedupProps.RunShape | SpineExport/SpineExport.py:29-59 | with the corrected seed, a run with a document and a directory fails only on "x" or writes a skeleton whose first bone is the root, with unique bone and slot names, closed references and the default skin first; the images are the file layout then `spine.json` |
| SpineExportDedupProps.DefaultLeafRaisesAsWritten | SpineExport/SpineExport.py:45-196 | in any state whose first skin record is the default one without a map, an image exported in the default skin is saved and then raises KeyError "attachments" |
| SpineExportDedupProps.VisitAllKeepsDefaultUnmapped | SpineExport/SpineExport.py:106-203 | the default record without a map stays so through the traversal, so every image of the default skin raises |
| SpineExportDedupProps.VisitChildKeepsDefaultUnmapped | SpineExport/SpineExport.py:108-203 | the same for one child |
| SpineExportDedupProps.SkippedPrefixIsInert | SpineExport/SpineExport.py:107-115 | skipped children before the rest change no outcome |
| SpineExportDedupProps.AsWrittenRunFails | SpineExport/SpineExport.py:29-59 | as written, a document whose first child of the root that is not skipped is an image fails with "attachments", having saved only that image and made no directory |
| SpineExportDedupProps.DefaultLeafRecorded | SpineExport/SpineExport.py:175-203 | with the corrected seed, an image visited first under the root gets a root-bone slot showing it and its attachment in the default skin |
| SpineExportDedupProps.NewBone | SpineExport/SpineExport.py:124-141 | a bone group with a new name adds one bone under the current bone at its centre relative to the offsets; children are placed from that centre |
| SpineExportDedupProps.KnownBone | SpineExport/SpineExport.py:142-145 | a bone group whose name is taken adds nothing; children are offset by the stored bone's coordinates, or "x" is raised for the root |
| SpineExportDedupProps.SlotGroup | SpineExport/SpineExport.py:147-155 | a slot group's slot sits on the enclosing bone with no attachment; it is listed when its name is new and kept out of the document otherwise |
| SpineExportDedupProps.SkinGroup | SpineExport/SpineExport.py:157-163 | a skin group always appends a skin record, even under a taken name, and its directory exists |
| SpineExportDedupProps.LeafWithoutSlot | SpineExport/SpineExport.py:175-203 | outside a slot group a leaf lists a slot named after it exactly when no slot has that name; its attachment goes into the skin record `getSkin` finds, and the step raises exactly when that record has no map |
| SpineExportDedupProps.LeafInSlot | SpineExport/SpineExport.py:184-203 | inside a listed slot a leaf shows only when the slot showed nothing yet; its attachment is stored under the slot's name in the record `getSkin` finds, and the step raises exactly when that record has no map |
| SpineExportDedupProps.LeafInOrphanSlot | SpineExport/SpineExport.py:184-203 | the same inside a slot group whose slot was never listed: only the unlisted record changes |
| SpineExportDedupProps.DefaultSkinGroupDuplicates | SpineExport/SpineExport.py:157-163 | "default (skin)" adds a second record named "default", and `getSkin` keeps finding the first |
| SpineExportDedupProps.DefaultSkinTagged | SpineExport/SpineExport.py:157-158 | "default (skin)" is a skin group whose clean name is "default" |
| SpineExportDedupProps.SingleLayerRun | SpineExport/SpineExport.py:29-59 | with the corrected seed and no guides, a one-layer document exports the root bone, one slot, one centred attachment, its PNG and `spine.json` |
| SpineExportPlain.InitialState | spineExport/SpineExport.py:41-50 | the seeded document: the root bone, no slots, and a default skin with an empty dictionary |
| SpineExportPlain.InitialCtx | spineExport/SpineExport.py:54-75 | the root's children are visited under the root bone, at offset (0, 0), outside slot groups, in the default skin |
| SpineExportPlain.Run | spineExport/SpineExport.py:29-58 | a run: no document, a cancelled chooser, or the skeleton written after the images |
| SpineExportPlain.BoneStep | spineExport/SpineExport.py:93-105 | a bone tag touches only the bones and keeps the slot and skin contexts |
| SpineExportPlain.SlotStep | spineExport/SpineExport.py:106-113 | a slot tag touches only the slots and hands on a valid slot reference |
| SpineExportPlain.SkinStep | spineExport/SpineExport.py:115-118 | a skin tag touches only skins and directories, and the new active skin is a key |
| SpineExportPlain.GroupStep | spineExport/SpineExport.py:86-121 | entering a group only grows the collections, saves no image, and gives a context that fits the new state |
| SpineExportPlain.SlotForLeaf | spineExport/SpineExport.py:130-140 | a leaf adds at most one slot, named after the leaf, on the current bone and showing it; existing slots only advance |
| SpineExportPlain.LeafStep | spineExport/SpineExport.py:123-157 | a leaf saves exactly its image path; bones, directories and skin keys are unchanged |
| SpineExportPlain.VisitChild | spineExport/SpineExport.py:77-121 | visiting one child only grows the collections |
| SpineExportPlain.VisitAll | spineExport/SpineExport.py:75-76 | visiting the children only grows the collections |
| SpineExportPlain.Exporter.constructor | spineExport/SpineExport.py:41-50 | the seeded document: the root bone, no slots and an empty default skin |
| SpineExportPlain.Exporter.GetSkin | spineExport/SpineExport.py:62-63 | `getSkin` returns the skin's entry of the dictionary |
| SpineExportPlain.Exporter.CreateDirectory | spineExport/SpineExport.py:65-67 | the directory log becomes `EnsureDirectory` of the skin's directory |
| SpineExportPlain.Exporter.EnterBone | spineExport/SpineExport.py:93-105 | the new bones and context are exactly those of `BoneStep` |
| SpineExportPlain.Exporter.EnterSlot | spineExport/SpineExport.py:106-113 | the new slots and slot context are exactly those of `SlotStep` |
| SpineExportPlain.Exporter.EnterSkin | spineExport/SpineExport.py:115-118 | the new skins, directories and skin are exactly those of `SkinStep` |
| SpineExportPlain.Exporter.EnterGroup | spineExport/SpineExport.py:86-118 | the new state and child context are exactly those of `GroupStep` |
| SpineExportPlain.Exporter.ExportLeaf | spineExport/SpineExport.py:123-157 | the new state is exactly that of `LeafStep` |
| SpineExportPlain.Exporter.Export | spineExport/SpineExport.py:75-121 | the field updates of the loop over the children are exactly those of `VisitAll` |
| SpineExportPlain.ExportDocument | spineExport/SpineExport.py:29-58 | the run's result is exactly `Run` |
| SpineExportPlainProps.SkippedChildIsInert | spineExport/SpineExport.py:77-84 | a skipped child contributes nothing: dropping it from a child list changes no outcome |
| SpineExportPlainProps.VisitAllImages | spineExport/SpineExport.py:123-128 | saved images are exactly those of the tree-only file layout, in order |
| SpineExportPlainProps.VisitChildImages | spineExport/SpineExport.py:123-128 | the same for one child |
| SpineExportPlainProps.VisitAllBones | spineExport/SpineExport.py:93-105 | the bones are the seeded ones followed by one per visited bone group, duplicates included, each parented to the nearest enclosing bone group and placed at its centre relative to that parent's centre |
| SpineExportPlainProps.VisitChildBones | spineExport/SpineExport.py:93-105 | the same for one child |
| SpineExportPlainProps.VisitGroup | spineExport/SpineExport.py:86-121 | visiting a group is entering it and visiting its children |
| SpineExportPlainProps.GroupBones | spineExport/SpineExport.py:93-105 | a group's bones are its own bone followed by those of its children |
| SpineExportPlainProps.UntaggedGroupKeepsBone | spineExport/SpineExport.py:88-92 | a group without a bone tag adds no bone and keeps the bone and offsets |
| SpineExportPlainProps.VisitAllClosed | spineExport/SpineExport.py:98-113 | every bone's parent and every slot's bone names a bone of the document, and bones only grow |
| SpineExportPlainProps.VisitChildClosed | spineExport/SpineExport.py:98-113 | the same for one child |
| SpineExportPlainProps.GroupClosed | spineExport/SpineExport.py:98-113 | entering a group keeps references closed |
| SpineExportPlainProps.LeafClosed | spineExport/SpineExport.py:130-137 | a leaf's new slot sits on a known bone |
| SpineExportPlainProps.AppendBoneClosed | spineExport/SpineExport.py:98-103 | a bone appended under a known parent keeps references closed and is itself known |
| SpineExportPlainProps.VisitAllSlotsAdvance | spineExport/SpineExport.py:130-140 | slots keep their name and bone, the list only grows, and an attachment changes only from unset to set |
| SpineExportPlainProps.VisitChildSlotsAdvance | spineExport/SpineExport.py:130-140 | the same for one child |
| SpineExportPlainProps.GroupSlotsAdvance | spineExport/SpineExport.py:106-113 | entering a group advances the slots |
| SpineExportPlainProps.LeafSlotsAdvance | spineExport/SpineExport.py:130-140 | a leaf advances the slots |
| SpineExportPlainProps.BoneGroup | spineExport/SpineExport.py:93-105 | a bone group always adds one bone under the current bone at its centre relative to the offsets; children are placed from that centre |
| SpineExportPlainProps.SlotGroup | spineExport/SpineExport.py:106-113 | a slot group always lists a new slot on the enclosing bone, with no attachment, and hands it to the children |
| SpineExportPlainProps.SkinGroup | spineExport/SpineExport.py:115-118 | a skin group resets its skin's entry to an empty dictionary, and its directory exists |
| SpineExportPlainProps.LeafWithoutSlot | spineExport/SpineExport.py:130-157 | outside a slot group a leaf lists a new slot named after it that shows it, and records its attachment there |
| SpineExportPlainProps.LeafInSlot | spineExport/SpineExport.py:138-157 | inside a slot group a leaf shows only when the slot showed nothing yet, every other slot is unchanged, and its attachment is stored under the slot's name |
| SpineExportPlainProps.RunShape | spineExport/SpineExport.py:29-58 | every run with a document and a directory exports a skeleton whose first bone is the root, with closed references and a default skin; the images are the file layout then `spine.json` |
| SpineExportPlainProps.SameNamedLeavesDuplicateSlots | spineExport/SpineExport.py:130-137 | two leaves with the same clean name outside slot groups add two slots of that name |
| SpineExportPlainProps.RootBoneGroupDuplicatesRoot | spineExport/SpineExport.py:93-103 | "root (bone)" adds a second bone named "root" |
| SpineExportPlainProps.DefaultSkinGroupResetsDefault | spineExport/SpineExport.py:115-117 | "default (skin)" empties the default skin, losing attachments already recorded |

## Left out

- Host interface: the extension's registration, its menu action, message boxes, batch mode and the folder chooser are left out. The chosen directory is a parameter, and the empty string stands for a cancelled chooser.
- Default folder: the choice of the chooser's starting folder (the document's folder or home) does not affect the export and is left out.
- File effects: saving pixels, making directories and writing `spine.json` are logged paths. Image contents, the JSON text (indentation, key order) and I/O failures are left out.
- Existing directories: the log of directories starts empty. Directories that already exist on disk before the run are not modelled.
- Skin key order: the plain variant's skins dictionary is a Dafny `map`, so the insertion order of its keys is not modelled.
- Numbers: coordinates are exact reals and layer bounds are integers. Python's floating-point rounding is not modelled.
- Layer rectangle: `bounds().bottom()` is taken from the host as a field of its own (for a Qt rectangle it is `top + height - 1`).
- Animations: the `animations` entry is always empty and is not represented.
- Pattern matching: only the four literal patterns modelled in `Tags` are covered, not a general regular-expression engine. Case folding covers the ASCII letters plus the four extra characters Python's engine folds onto `s`, `k` and `i`.
- SpineExportPlain.Exporter.GetSkin: requires the skin to be a key. The traversal always satisfies this (`Fits`), so the `KeyError` path of `getSkin` is never reached and not modelled.
- Tags.RemoveTag: its own contract states only that names do not grow. Its meaning is stated by the lemmas around it.
- SpineExportDedup.InitialStateAsWritten: a skin record holds only its name and an optional "attachments" map, so the as-written seed's empty `attachment` key is not represented. A skeleton written from that seed would carry the key; no run from it reaches the writing step once an image is exported in the default skin.

## Behaviour worth knowing

The model follows the code; the lemmas named below state each of these.

- Cleaning is not idempotent. One non-rescanning deletion pass can leave a token
  that closes up after a deletion (`Tags.StripTagNotIdempotent`). It is
  idempotent only when the cleaned name no longer matches
  (`Tags.StripTagIdempotentWhenClean`).
- The plain variant keeps every repeat:
  - a repeated bone name adds a second bone (`SpineExportPlainProps.RootBoneGroupDuplicatesRoot`, `SpineExportPlainProps.VisitAllBones`);
  - two same-named leaves add two slots (`SpineExportPlainProps.SameNamedLeavesDuplicateSlots`);
  - a skin group named after an existing skin resets it (`SpineExportPlainProps.DefaultSkinGroupResetsDefault`).
- In the dedup variant:
  - `getSkin` falls back to the first skin record (`SpineExportDedup.SkinIndex`);
  - a skin group always appends a record, so "default" can appear twice (`SpineExportDedupProps.DefaultSkinGroupDuplicates`);
  - a slot group whose name is taken gets a fresh slot record that never reaches the document, and attachments set on it are lost (`SpineExportDedupProps.SlotGroup`);
  - a bone group whose clean name is "root" finds the seeded root bone, which has no coordinates, and the run stops with `KeyError` "x" (`SpineExportDedupProps.KnownBone`).

## Findings

| source | as written | input that shows it | evidently intended | confidence | as-written member | corrected member |
|---|---|---|---|---|---|---|
| SpineExport/SpineExport.py:45 | the default skin is seeded with the key `attachment`, while every read and every other skin record uses `attachments` | any image layer exported in the default skin, that is outside every skin group or inside a group named "default (skin)": its file is saved, then `KeyError` "attachments" ends the run before `spine.json` is written. The smallest case is a document whose root has one visible layer. A bone group named "root (bone)" visited earlier stops the run with "x" first | the default skin seeded as `{"name": "default", "attachments": {}}` | not executed | SpineExportDedupProps.DefaultLeafRaisesAsWritten | SpineExportDedupProps.SeededRunNeverMissesAttachments |

`SpineExportDedup.InitialStateAsWritten`, the constructor
`SpineExportDedup.Exporter.AsWritten`, `SpineExportDedup.RunAsWritten` and
`SpineExportDedup.ExportDocumentAsWritten` keep the seed as written; the
whole-run failure is `SpineExportDedupProps.AsWrittenRunFails`. The traversal
itself is unchanged. `SpineExportDedup.Run` and `SpineExportDedup.ExportDocument`
use the corrected seed `SpineExportDedup.InitialState`. With that seed, an image
in the default skin is recorded there (`SpineExportDedupProps.LeafWithoutSlot`,
`SpineExportDedupProps.DefaultLeafRecorded`).

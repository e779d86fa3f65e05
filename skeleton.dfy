/** The pieces of a Spine skeleton document that both exporter variants
    build: bones, slots and attachments, and the slot-keyed attachment map of
    one skin. */
module Skeleton {
  import opened Layers

  datatype Option<T> = None | Some(value: T)

  /** A bone.  The seeded root bone is the record `{name: "root"}` and has no
      parent and no coordinates; every bone the traversal adds has all four
      fields. */
  datatype Bone =
    | Root(name: string)
    | Child(name: string, parent: string, x: real, y: real)

  /** A slot, bound to a bone, with the attachment it shows (`None` is JSON
      null). */
  datatype Slot = Slot(name: string, bone: string, attachment: Option<string>)

  /** One image attachment and its placement. */
  datatype Attachment = Attachment(name: string, x: real, y: real, rotation: int, width: int, height: int)

  /** The attachment recorded for an exported layer named `name`: the image
      name under the active skin, the centre of the layer's bounds relative to
      the offsets, no rotation, and the layer's size. */
  function Placement(child: Node, name: string, skin: string, xOffset: real, yOffset: real): (a: Attachment)
    ensures a.name == AttachmentName(skin, name) && a.rotation == 0
    ensures a.x + xOffset == CenterX(child.bounds) && a.y + yOffset == FlippedCenterY(child.bounds)
    ensures a.width == child.bounds.width && a.height == child.bounds.height
  {
    Attachment(AttachmentName(skin, name),
               CenterX(child.bounds) - xOffset, FlippedCenterY(child.bounds) - yOffset,
               0, child.bounds.width, child.bounds.height)
  }

  /** The attachments of one skin: slot name, then attachment name. */
  type SkinAttachments = map<string, map<string, Attachment>>

  /** Python's `not slot['attachment']`: the attachment is null or the empty
      string. */
  predicate IsUnset(a: Option<string>)
  {
    a == None || a == Some("")
  }

  /** `attachments[slot][name] = a`, creating the slot's map on first use. */
  function RecordAttachment(m: SkinAttachments, slot: string, name: string, a: Attachment): (r: SkinAttachments)
    ensures r.Keys == m.Keys + {slot}
    ensures name in r[slot] && r[slot][name] == a
    ensures slot in m ==> r[slot].Keys == m[slot].Keys + {name}
    ensures slot !in m ==> r[slot].Keys == {name}
    ensures forall n :: n in r[slot] && n != name ==> slot in m && n in m[slot] && r[slot][n] == m[slot][n]
    ensures forall s :: s in m && s != slot ==> r[s] == m[s]
  {
    var inner := if slot in m then m[slot] else map[];
    m[slot := inner[name := a]]
  }

  /** Some bone in `bones` is called `name`. */
  predicate HasBoneNamed(bones: seq<Bone>, name: string)
  {
    exists i :: 0 <= i < |bones| && bones[i].name == name
  }

  /** No two bones share a name. */
  predicate UniqueBoneNames(bones: seq<Bone>)
  {
    forall i, j :: 0 <= i < j < |bones| ==> bones[i].name != bones[j].name
  }

  /** No two slots share a name. */
  predicate UniqueSlotNames(slots: seq<Slot>)
  {
    forall i, j :: 0 <= i < j < |slots| ==> slots[i].name != slots[j].name
  }

  /** No dangling bone references: every added bone's parent and every
      slot's bone name a bone of the document. */
  predicate ReferencesClosed(bones: seq<Bone>, slots: seq<Slot>)
  {
    (forall i :: 0 <= i < |bones| && bones[i].Child? ==> HasBoneNamed(bones, bones[i].parent))
    && (forall i :: 0 <= i < |slots| ==> HasBoneNamed(bones, slots[i].bone))
  }

  /** `b` continues `a`: every slot already in `a` keeps its name and bone,
      any attachment it already shows stays, and the list only grows.  An
      attachment changes only from unset to set. */
  predicate SlotsAdvance(a: seq<Slot>, b: seq<Slot>)
  {
    |a| <= |b|
    && forall i :: 0 <= i < |a| ==>
         b[i].name == a[i].name && b[i].bone == a[i].bone
         && (!IsUnset(a[i].attachment) ==> b[i].attachment == a[i].attachment)
  }

  lemma SlotsAdvanceTransitive(a: seq<Slot>, b: seq<Slot>, c: seq<Slot>)
    requires SlotsAdvance(a, b) && SlotsAdvance(b, c)
    ensures SlotsAdvance(a, c)
  {
    forall i | 0 <= i < |a|
      ensures c[i].name == a[i].name && c[i].bone == a[i].bone
      ensures !IsUnset(a[i].attachment) ==> c[i].attachment == a[i].attachment
    {
      assert b[i].name == a[i].name;
    }
  }

  /** A bone named in a list stays named once bones are appended. */
  lemma NamedInPrefix(a: seq<Bone>, b: seq<Bone>, name: string)
    requires a <= b && HasBoneNamed(a, name)
    ensures HasBoneNamed(b, name)
  {
    var i :| 0 <= i < |a| && a[i].name == name;
    assert b[i] == a[i];
  }

  /** Slots that advance keep their bones, so references stay closed when
      the slots added meanwhile sit on known bones. */
  lemma SlotsStayClosed(bones: seq<Bone>, a: seq<Slot>, b: seq<Slot>)
    requires SlotsAdvance(a, b) && forall i :: 0 <= i < |a| ==> HasBoneNamed(bones, a[i].bone)
    requires forall i :: |a| <= i < |b| ==> HasBoneNamed(bones, b[i].bone)
    ensures forall i :: 0 <= i < |b| ==> HasBoneNamed(bones, b[i].bone)
  {
    forall i | 0 <= i < |b| ensures HasBoneNamed(bones, b[i].bone) {
      if i < |a| {
        assert b[i].bone == a[i].bone;
      }
    }
  }
}

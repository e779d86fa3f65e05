/** The host's layer tree, as the exporter reads it, and the geometry and
    file layout both exporter variants derive from it. */
module Layers {
  import opened Tags

  /** A layer's pixel bounds in document space, y growing downward.  The
      host's rectangle reports `bottom` itself (for a Qt rectangle it is
      `top + height - 1`), so it is kept as a field of its own. */
  datatype Rect = Rect(left: int, top: int, width: int, height: int, bottom: int)

  /** One node of the layer tree: its name, its type string, whether it is
      visible, its children in the host's order and its bounds. */
  datatype Node = Node(name: string, kind: string, visible: bool, children: seq<Node>, bounds: Rect)

  const RootBoneName: string := "root"
  const DefaultSkinName: string := "default"
  const ImageFormat: string := "png"

  /** A child the traversal passes over without looking inside: a selection
      mask, an invisible layer, or a name holding the literal, case-sensitive
      "(ignore)". */
  predicate IsSkipped(n: Node)
  {
    Contains(n.kind, "selectionmask") || !n.visible || Contains(n.name, "(ignore)")
  }

  /** A child the traversal descends into: it has children and carries no
      merge tag.  Every other child that is not skipped is exported as one
      image. */
  predicate IsStructural(n: Node)
  {
    |n.children| > 0 && !HasTag(n.name, MergeTag)
  }

  /** Horizontal centre of the bounds. */
  function CenterX(r: Rect): real
  {
    r.left as real + r.width as real / 2.0
  }

  /** Vertical centre of the bounds in the y-up convention: the bottom edge
      negated, raised by half the height. */
  function FlippedCenterY(r: Rect): real
  {
    -(r.bottom as real) + r.height as real / 2.0
  }

  /** The directory images are saved into for the active skin. */
  function SaveDirectory(directory: string, skin: string): string
  {
    if skin != DefaultSkinName then directory + "/" + skin else directory
  }

  /** The file an exported layer is saved to. */
  function ImagePath(directory: string, skin: string, name: string): string
  {
    SaveDirectory(directory, skin) + "/" + name + "." + ImageFormat
  }

  /** The attachment's image name, relative to the image directory. */
  function AttachmentName(skin: string, name: string): string
  {
    (if skin != DefaultSkinName then skin + "/" else "") + name
  }

  /** The directory a skin group's images go to. */
  function SkinDirectory(directory: string, skin: string): string
  {
    directory + "/" + skin
  }

  /** `createDirectoy`, on the log of directories made: make the directory
      unless it is already there. */
  function EnsureDirectory(directories: seq<string>, path: string): (r: seq<string>)
    ensures path in r && directories <= r && |r| <= |directories| + 1
    ensures path in directories ==> r == directories
  {
    if path in directories then directories else directories + [path]
  }

  /** Paths of the images the traversal saves for `kids` under the active
      skin `skin`, computed from the tree alone.  It reads only the skip
      rule, the merge tag and the skin tag: a reference for the file layout
      that does not go through the skeleton document. */
  function ExpectedImages(directory: string, kids: seq<Node>, skin: string): seq<string>
    decreases kids
  {
    if kids == [] then []
    else ExpectedImagesOf(directory, kids[0], skin) + ExpectedImages(directory, kids[1..], skin)
  }

  function ExpectedImagesOf(directory: string, child: Node, skin: string): seq<string>
    decreases child
  {
    if IsSkipped(child) then []
    else if IsStructural(child) then
      ExpectedImages(directory, child.children,
                     if HasTag(child.name, SkinTag) then StripTag(child.name, SkinTag) else skin)
    else [ImagePath(directory, skin, StripTag(child.name, MergeTag))]
  }
}

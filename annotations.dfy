/**
 * The Go code generator's own annotations (`$Go.doc`, `$Go.package`, `$Go.import`,
 * `$Go.tag`, `$Go.notag`, `$Go.name`) folded from a node's annotation list.
 */
module Annotations {
  import opened Schema

  const DocId: Id := 0xc58ad6bd519f935e
  const PackageId: Id := 0xbea97f1023792be0
  const ImportId: Id := 0xe130b601260e44b5
  const TagId: Id := 0xa574b41924caefc7
  const NoTagId: Id := 0xc8768679ec52e012
  const NameId: Id := 0xc2b96012172f8df1

  /** Tag types (`defaultTag`, `noTag`, `customTag`). */
  const DefaultTag: int := 0
  const NoTag: int := 1
  const CustomTag: int := 2

  datatype Annotations = Annotations(
    doc: string,
    pkg: string,
    imp: string,
    tagType: int,
    customTag: string,
    name: string)

  /** A fresh `annotations` record: every field at its zero value. */
  const Defaults := Annotations("", "", "", DefaultTag, "", "")

  predicate Recognised(id: Id)
  {
    id == DocId || id == PackageId || id == ImportId || id == TagId || id == NoTagId || id == NameId
  }

  /** The text of the last annotation in `list` with this id, or "" if there is none. */
  function LastText(list: seq<Annotation>, id: Id): string
  {
    if list == [] then ""
    else if list[|list| - 1].id == id then Text(list[|list| - 1].value)
    else LastText(list[..|list| - 1], id)
  }

  /** The tag type the last `$tag` or `$notag` in `list` chooses, the default if neither occurs. */
  function LastTagType(list: seq<Annotation>): int
  {
    if list == [] then DefaultTag
    else if list[|list| - 1].id == TagId then CustomTag
    else if list[|list| - 1].id == NoTagId then NoTag
    else LastTagType(list[..|list| - 1])
  }

  /**
   * What `parseAnnotations` yields, field by field: each text field is the last
   * occurrence of its annotation, the tag type is set by the last `$tag`/`$notag`.
   */
  function Annotated(list: seq<Annotation>): Annotations
  {
    Annotations(
      LastText(list, DocId), LastText(list, PackageId), LastText(list, ImportId),
      LastTagType(list), LastText(list, TagId), LastText(list, NameId))
  }

  /** `parseAnnotations`: one pass over the list, each recognised id overwriting its field. */
  method ParseAnnotations(list: seq<Annotation>) returns (ann: Annotations)
    ensures ann == Annotated(list)
  {
    ann := Defaults;
    var i := 0;
    while i < |list|
      invariant 0 <= i <= |list|
      invariant ann == Annotated(list[..i])
    {
      var a := list[i];
      var val := a.value;
      if a.id == DocId {
        ann := ann.(doc := Text(val));
      } else if a.id == PackageId {
        ann := ann.(pkg := Text(val));
      } else if a.id == ImportId {
        ann := ann.(imp := Text(val));
      } else if a.id == TagId {
        ann := ann.(tagType := CustomTag, customTag := Text(val));
      } else if a.id == NoTagId {
        ann := ann.(tagType := NoTag);
      } else if a.id == NameId {
        ann := ann.(name := Text(val));
      }
      assert list[..i + 1][..i] == list[..i];
      i := i + 1;
    }
    assert list[..i] == list;
  }

  /** `Tag`: the string an enumerant called `name` is tagged with; "" means no tag. */
  function Tag(ann: Annotations, name: string): (t: string)
    ensures ann.tagType == NoTag ==> t == ""
    ensures ann.tagType == CustomTag ==> t == ann.customTag
    ensures ann.tagType != NoTag && ann.tagType != CustomTag ==> t == name
  {
    if ann.tagType == NoTag then ""
    else if ann.tagType == CustomTag then ann.customTag
    else name
  }

  /** `Rename`: the `$name` override when one is set, the given name otherwise. */
  function Rename(ann: Annotations, given: string): (r: string)
    ensures ann.name != "" ==> r == ann.name
    ensures ann.name == "" ==> r == given
  {
    if ann.name == "" then given else ann.name
  }

  /** `parseAnnotations(list).Rename(given)`, read straight off the list: the last `$name`, if set. */
  function Renamed(list: seq<Annotation>, given: string): string
  {
    var r := LastText(list, NameId);
    if r == "" then given else r
  }

  lemma RenameAnnotated(list: seq<Annotation>, given: string)
    ensures Rename(Annotated(list), given) == Renamed(list, given)
  {
  }

  /** With no annotations, every field keeps its zero value. */
  lemma AnnotatedEmpty()
    ensures Annotated([]) == Defaults
  {
  }

  /** An unrecognised annotation, wherever it stands in the list, changes nothing. */
  lemma {:induction false} IgnoresUnrecognised(before: seq<Annotation>, a: Annotation, after: seq<Annotation>)
    requires !Recognised(a.id)
    ensures Annotated(before + [a] + after) == Annotated(before + after)
  {
    IgnoresUnrecognisedText(before, a, after, DocId);
    IgnoresUnrecognisedText(before, a, after, PackageId);
    IgnoresUnrecognisedText(before, a, after, ImportId);
    IgnoresUnrecognisedText(before, a, after, TagId);
    IgnoresUnrecognisedText(before, a, after, NameId);
    IgnoresUnrecognisedTag(before, a, after);
  }

  lemma {:induction false} IgnoresUnrecognisedText(before: seq<Annotation>, a: Annotation, after: seq<Annotation>, id: Id)
    requires a.id != id
    ensures LastText(before + [a] + after, id) == LastText(before + after, id)
  {
    var l, r := before + [a] + after, before + after;
    if after == [] {
      assert l[..|l| - 1] == before && r == before;
    } else {
      var init := after[..|after| - 1];
      assert l[..|l| - 1] == before + [a] + init && l[|l| - 1] == after[|after| - 1];
      assert r[..|r| - 1] == before + init && r[|r| - 1] == after[|after| - 1];
      IgnoresUnrecognisedText(before, a, init, id);
    }
  }

  lemma {:induction false} IgnoresUnrecognisedTag(before: seq<Annotation>, a: Annotation, after: seq<Annotation>)
    requires a.id != TagId && a.id != NoTagId
    ensures LastTagType(before + [a] + after) == LastTagType(before + after)
  {
    var l, r := before + [a] + after, before + after;
    if after == [] {
      assert l[..|l| - 1] == before && r == before;
    } else {
      var init := after[..|after| - 1];
      assert l[..|l| - 1] == before + [a] + init && l[|l| - 1] == after[|after| - 1];
      assert r[..|r| - 1] == before + init && r[|r| - 1] == after[|after| - 1];
      IgnoresUnrecognisedTag(before, a, init);
    }
  }

  /**
   * The last annotation with a given id decides its field: "" when there is none,
   * otherwise the text of the occurrence at index `i` that no later one follows.
   */
  lemma {:induction false} LastTextWins(list: seq<Annotation>, id: Id, i: nat)
    requires i < |list| && list[i].id == id
    requires forall j :: i < j < |list| ==> list[j].id != id
    ensures LastText(list, id) == Text(list[i].value)
  {
    if i < |list| - 1 {
      var init := list[..|list| - 1];
      assert init[i] == list[i];
      LastTextWins(init, id, i);
    }
  }

  lemma {:induction false} LastTextAbsent(list: seq<Annotation>, id: Id)
    requires forall j :: 0 <= j < |list| ==> list[j].id != id
    ensures LastText(list, id) == ""
  {
    if list != [] {
      var init := list[..|list| - 1];
      assert forall j :: 0 <= j < |init| ==> init[j] == list[j];
      LastTextAbsent(init, id);
    }
  }

  /**
   * Conflicting `$tag`/`$notag`: the last one wins, so `$tag` followed later by
   * `$notag` gives no tag and `$notag` followed by `$tag` gives the custom tag.
   */
  lemma {:induction false} LastTagWins(list: seq<Annotation>, i: nat)
    requires i < |list| && (list[i].id == TagId || list[i].id == NoTagId)
    requires forall j :: i < j < |list| ==> list[j].id != TagId && list[j].id != NoTagId
    ensures LastTagType(list) == if list[i].id == TagId then CustomTag else NoTag
  {
    if i < |list| - 1 {
      var init := list[..|list| - 1];
      assert init[i] == list[i];
      LastTagWins(init, i);
    }
  }

  lemma {:induction false} LastTagAbsent(list: seq<Annotation>)
    requires forall j :: 0 <= j < |list| ==> list[j].id != TagId && list[j].id != NoTagId
    ensures LastTagType(list) == DefaultTag
  {
    if list != [] {
      var init := list[..|list| - 1];
      assert forall j :: 0 <= j < |init| ==> init[j] == list[j];
      LastTagAbsent(init);
    }
  }

  /** `$tag` then `$notag`: the enumerant has no tag, whatever the custom text was. */
  lemma TagThenNoTag(before: seq<Annotation>, tag: Annotation, notag: Annotation, name: string)
    requires tag.id == TagId && notag.id == NoTagId
    ensures Tag(Annotated(before + [tag, notag]), name) == ""
    ensures Annotated(before + [tag, notag]).customTag == Text(tag.value)
  {
    var l := before + [tag, notag];
    LastTagWins(l, |l| - 1);
    LastTextWins(l, TagId, |before|);
  }
}

/**
 * `convert_objectid_to_str`: the last step of almost every response, which
 * turns a database document into something the JSON encoder accepts by
 * replacing every ObjectId leaf with its string rendering.
 */
module Serialize {
  import opened ObjectIds

  /** A database document: dicts (keys kept in insertion order), lists and scalars. */
  datatype Doc =
    | Oid(id: ObjectId)
    | Str(s: string)
    | Int(i: int)
    | Bool(b: bool)
    | Date(t: int)
    | Null
    | Dict(entries: seq<(string, Doc)>)
    | List(items: seq<Doc>)

  /** No ObjectId occurs anywhere in the document. */
  predicate NoOid(d: Doc) {
    match d
    case Oid(_) => false
    case Dict(es) => forall i :: 0 <= i < |es| ==> NoOid(es[i].1)
    case List(xs) => forall i :: 0 <= i < |xs| ==> NoOid(xs[i])
    case _ => true
  }

  /** The conversion: ObjectIds become strings, dicts and lists are rebuilt entry by entry. */
  function Convert(d: Doc): (r: Doc)
    ensures NoOid(r)
  {
    match d
    case Oid(id) => Str(ToString(id))
    case Dict(es) => Dict(seq(|es|, i requires 0 <= i < |es| => (es[i].0, Convert(es[i].1))))
    case List(xs) => List(seq(|xs|, i requires 0 <= i < |xs| => Convert(xs[i])))
    case _ => d
  }

  /**
   * The relation the conversion is meant to establish, stated node by node:
   * `r` is `d` with each ObjectId leaf replaced by its rendering, every dict
   * keeping exactly its keys in their order, every list its length and order,
   * and every other scalar unchanged.
   */
  predicate Rendered(d: Doc, r: Doc) {
    match d
    case Oid(id) => r == Str(ToString(id))
    case Dict(es) =>
      r.Dict? && |r.entries| == |es| &&
      forall i :: 0 <= i < |es| ==> r.entries[i].0 == es[i].0 && Rendered(es[i].1, r.entries[i].1)
    case List(xs) =>
      r.List? && |r.items| == |xs| &&
      forall i :: 0 <= i < |xs| ==> Rendered(xs[i], r.items[i])
    case _ => r == d
  }

  /** The conversion establishes the relation. */
  lemma {:induction false} ConvertRendered(d: Doc)
    ensures Rendered(d, Convert(d))
  {
    match d
    case Dict(es) =>
      forall i | 0 <= i < |es| ensures Rendered(es[i].1, Convert(d).entries[i].1) {
        ConvertRendered(es[i].1);
      }
    case List(xs) =>
      forall i | 0 <= i < |xs| ensures Rendered(xs[i], Convert(d).items[i]) {
        ConvertRendered(xs[i]);
      }
    case _ =>
  }

  /** The relation determines its second argument, so the conversion is the only result satisfying it. */
  lemma {:induction false} RenderedUnique(d: Doc, r: Doc)
    requires Rendered(d, r)
    ensures r == Convert(d)
  {
    match d
    case Dict(es) =>
      var c := Convert(d);
      forall i | 0 <= i < |es| ensures r.entries[i] == c.entries[i] {
        RenderedUnique(es[i].1, r.entries[i].1);
      }
      assert r.entries == c.entries;
    case List(xs) =>
      var c := Convert(d);
      forall i | 0 <= i < |xs| ensures r.items[i] == c.items[i] {
        RenderedUnique(xs[i], r.items[i]);
      }
      assert r.items == c.items;
    case _ =>
  }

  /** A document without ObjectIds is returned unchanged. */
  lemma {:induction false} ConvertClean(d: Doc)
    requires NoOid(d)
    ensures Convert(d) == d
  {
    match d
    case Dict(es) =>
      forall i | 0 <= i < |es| ensures Convert(d).entries[i] == es[i] {
        ConvertClean(es[i].1);
      }
      assert Convert(d).entries == es;
    case List(xs) =>
      forall i | 0 <= i < |xs| ensures Convert(d).items[i] == xs[i] {
        ConvertClean(xs[i]);
      }
      assert Convert(d).items == xs;
    case _ =>
  }

  /** Converting twice is the same as converting once. */
  lemma {:induction false} ConvertIdempotent(d: Doc)
    ensures Convert(Convert(d)) == Convert(d)
  {
    ConvertClean(Convert(d));
  }
}

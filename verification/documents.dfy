/**
 * A post as the database returns it, in the document form the serializer
 * walks, and what a client receives for it.
 */
module Documents {
  import opened ObjectIds
  import opened Records
  import opened Serialize

  /** The stored post document: `_id` first, then the fields `create_post` writes, in its order. */
  function PostDocument(p: Post): Doc {
    Dict([
      ("_id", Oid(p.id)),
      ("title", Str(p.title)),
      ("description", Str(p.description)),
      ("category", Str(p.category)),
      ("location", Str(p.location)),
      ("date", Str(p.date)),
      ("type", Str(p.kind)),
      ("image_base64", if p.image.Some? then Str(p.image.value) else Null),
      ("author", Oid(p.author)),
      ("authorName", Str(p.authorName)),
      ("createdAt", Date(p.createdAt)),
      ("status", Str(p.status)),
      ("claims", List(seq(|p.claims|, i requires 0 <= i < |p.claims| => Oid(p.claims[i]))))
    ])
  }

  /**
   * What `get_post` and `get_posts` send for a stored post: its own id, its
   * author's id and each claim id become 24-digit strings, every other field
   * (title to author name, creation time, status) is sent as stored, and no
   * ObjectId is left.
   */
  lemma RenderedPost(p: Post)
    ensures var d := Convert(PostDocument(p));
      && NoOid(d)
      && d.Dict? && |d.entries| == 13
      && d.entries[0] == ("_id", Str(ToString(p.id)))
      && d.entries[8] == ("author", Str(ToString(p.author)))
      && (forall i :: 1 <= i < 12 && i != 8 ==> d.entries[i] == PostDocument(p).entries[i])
      && d.entries[12].0 == "claims" && d.entries[12].1.List?
      && |d.entries[12].1.items| == |p.claims|
      && forall i :: 0 <= i < |p.claims| ==> d.entries[12].1.items[i] == Str(ToString(p.claims[i]))
  {
    var doc := PostDocument(p);
    var d := Convert(doc);
    assert d.entries[0] == (doc.entries[0].0, Convert(Oid(p.id)));
    assert d.entries[8] == (doc.entries[8].0, Convert(Oid(p.author)));
    forall i | 1 <= i < 12 && i != 8 ensures d.entries[i] == doc.entries[i] {
      ConvertClean(doc.entries[i].1);
    }
    var claims := d.entries[12].1;
    assert claims == Convert(doc.entries[12].1);
    forall i | 0 <= i < |p.claims| ensures claims.items[i] == Str(ToString(p.claims[i])) {
      assert claims.items[i] == Convert(Oid(p.claims[i]));
    }
  }
}

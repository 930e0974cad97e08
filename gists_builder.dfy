/**
 * GistsBuilder: the public response shape of a user's gist list, and the
 * error payload.
 */
module GistsBuilder {
  import opened Wrappers

  /** The description shown for a gist whose description is missing, null or empty. */
  const NoDescription := "No Description"

  /** A key of a JSON object: missing, present with null, or present with a value. */
  datatype Field<T> = Absent | Null | Present(value: T) {

    /** dict.get(key): None both for a missing key and for null. */
    function Get(): Option<T> {
      if Present? then Some(value) else None
    }
  }

  /**
   * One record of the upstream gist list, reduced to the keys the builder
   * reads. files holds the keys of the "files" object in order, or None when
   * the record has no "files" key.
   */
  datatype RawGist = RawGist(
    id: Field<string>,
    description: Field<string>,
    htmlUrl: Field<string>,
    files: Option<seq<string>>)

  /** One entry of "gists_list"; None stands for JSON null. */
  datatype ShapedGist = ShapedGist(id: Option<string>, description: string, htmlUrl: Option<string>, files: seq<string>)

  /** {"name", "page", "total_gists", "gists_list"}. */
  datatype GistList = GistList(name: string, page: nat, totalGists: nat, gistsList: seq<ShapedGist>)

  /** A response body: a gist list, or {"error": message} as GistsBuilder.error builds it. */
  datatype Payload = Gists(list: GistList) | Error(message: string)

  /** "html_url" in gist: the key is there, whatever its value. */
  predicate HasHtmlUrl(g: RawGist) {
    !g.htmlUrl.Absent?
  }

  /** A description Python reads as false: missing, null or the empty string. */
  predicate IsFalsy(d: Field<string>) {
    !d.Present? || d.value == ""
  }

  /** The entry built for one record that has "html_url". */
  function ShapeGist(g: RawGist): (e: ShapedGist)
    ensures e.id == g.id.Get() && e.htmlUrl == g.htmlUrl.Get()
    ensures e.description != ""
    ensures e.description == NoDescription <==> IsFalsy(g.description) || g.description == Present(NoDescription)
    ensures !IsFalsy(g.description) ==> e.description == g.description.value
    ensures g.files.None? ==> e.files == []
    ensures g.files.Some? ==> e.files == g.files.value
  {
    ShapedGist(
      g.id.Get(),
      if IsFalsy(g.description) then NoDescription else g.description.value,
      g.htmlUrl.Get(),
      g.files.GetOr([]))
  }

  /** The entries of "gists_list": one per record with "html_url", in order. */
  function ShapedEntries(gists: seq<RawGist>): (entries: seq<ShapedGist>)
    ensures |entries| <= |gists|
  {
    if gists == [] then []
    else (if HasHtmlUrl(gists[0]) then [ShapeGist(gists[0])] else []) + ShapedEntries(gists[1..])
  }

  /** The positions, from `from` on, of the records that have "html_url", in increasing order. */
  function KeptIndices(gists: seq<RawGist>, from: nat): (kept: seq<nat>)
    requires from <= |gists|
    ensures forall k :: 0 <= k < |kept| ==> from <= kept[k] < |gists| && HasHtmlUrl(gists[kept[k]])
    ensures forall k, l :: 0 <= k < l < |kept| ==> kept[k] < kept[l]
    ensures forall i :: from <= i < |gists| && HasHtmlUrl(gists[i]) ==> i in kept
    decreases |gists| - from
  {
    if from == |gists| then []
    else if HasHtmlUrl(gists[from]) then [from] + KeptIndices(gists, from + 1)
    else KeptIndices(gists, from + 1)
  }

  /** The body of GistsBuilder.response: the whole list is counted, only records with "html_url" are listed. */
  function Shape(username: string, gists: seq<RawGist>, page: nat): (r: GistList)
    ensures r.name == username && r.page == page
    ensures r.totalGists == |gists| && |r.gistsList| <= r.totalGists
  {
    GistList(username, page, |gists|, ShapedEntries(gists))
  }

  /** Shaping a concatenation shapes each part. */
  lemma {:induction false} ShapedEntriesAppend(a: seq<RawGist>, b: seq<RawGist>)
    ensures ShapedEntries(a + b) == ShapedEntries(a) + ShapedEntries(b)
  {
    if a != [] {
      assert (a + b)[1..] == a[1..] + b;
      ShapedEntriesAppend(a[1..], b);
    } else {
      assert a + b == b;
    }
  }

  /** The entries shaped from gists[from..] are those of the kept records, one for one. */
  lemma {:induction false} ShapedEntriesFollowKeptIndices(gists: seq<RawGist>, from: nat)
    requires from <= |gists|
    ensures |ShapedEntries(gists[from..])| == |KeptIndices(gists, from)|
    ensures forall k :: 0 <= k < |KeptIndices(gists, from)| ==>
      ShapedEntries(gists[from..])[k] == ShapeGist(gists[KeptIndices(gists, from)[k]])
    decreases |gists| - from
  {
    var rest := gists[from..];
    if from < |gists| {
      var kept, keptTail := KeptIndices(gists, from), KeptIndices(gists, from + 1);
      var tail := gists[from + 1..];
      assert rest[0] == gists[from] && rest[1..] == tail;
      var entries, entriesTail := ShapedEntries(rest), ShapedEntries(tail);
      ShapedEntriesFollowKeptIndices(gists, from + 1);
      if HasHtmlUrl(gists[from]) {
        assert kept == [from] + keptTail;
        assert entries == [ShapeGist(gists[from])] + entriesTail;
      } else {
        assert kept == keptTail;
        assert entries == entriesTail;
      }
    } else {
      assert rest == [];
    }
  }

  /**
   * GistsBuilder.response: "name" and "page" are echoed, "total_gists" counts
   * every raw record, and "gists_list" holds exactly the records that have
   * "html_url", shaped, in their original order (so it is never longer).
   */
  lemma ShapeKeepsRecordsWithUrl(username: string, gists: seq<RawGist>, page: nat)
    ensures var r := Shape(username, gists, page);
      && r.name == username && r.page == page && r.totalGists == |gists|
      && |r.gistsList| <= r.totalGists
      && |r.gistsList| == |KeptIndices(gists, 0)|
      && forall k :: 0 <= k < |r.gistsList| ==> r.gistsList[k] == ShapeGist(gists[KeptIndices(gists, 0)[k]])
  {
    ShapedEntriesFollowKeptIndices(gists, 0);
    assert gists[0..] == gists;
  }

  /** Three records of which the middle one lacks "html_url": three counted, two listed. */
  lemma ThreeRecordsOneWithoutUrl(username: string, a: RawGist, b: RawGist, c: RawGist, page: nat)
    requires HasHtmlUrl(a) && !HasHtmlUrl(b) && HasHtmlUrl(c)
    ensures Shape(username, [a, b, c], page).totalGists == 3
    ensures Shape(username, [a, b, c], page).gistsList == [ShapeGist(a), ShapeGist(c)]
  {
    assert [c][1..] == [];
    assert ShapedEntries([c]) == [ShapeGist(c)];
    assert [b, c][1..] == [c];
    assert ShapedEntries([b, c]) == [ShapeGist(c)];
    assert [a, b, c][1..] == [b, c];
  }

  /** GistsBuilder.response, building "gists_list" by appending in a loop. */
  method Response(username: string, gists: seq<RawGist>, page: nat) returns (r: GistList)
    ensures r == Shape(username, gists, page)
  {
    r := GistList(username, page, |gists|, []);
    for i := 0 to |gists|
      invariant r == GistList(username, page, |gists|, ShapedEntries(gists[..i]))
    {
      var gist := gists[i];
      ShapedEntriesAppend(gists[..i], [gist]);
      assert gists[..i + 1] == gists[..i] + [gist];
      if HasHtmlUrl(gist) {
        r := r.(gistsList := r.gistsList + [ShapeGist(gist)]);
      }
    }
    assert gists[..|gists|] == gists;
  }
}

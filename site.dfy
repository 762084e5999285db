/**
 * The request strings that `Site` assembles: the search constraint of a site
 * search and the XML body of a batch tag update. The escaping helpers
 * (`utility.searchEscape`, `utility.escapeHTML`) and `encodeURI` are not part
 * of this model; they are passed in as arbitrary functions.
 */
module Site {
  import opened Wrappers
  import opened Js
  import opened Strings

  // ---- search constraints ------------------------------------------------------

  /** A filter given either as a comma-separated string or as an array of strings. */
  datatype Filter = Text(text: string) | List(items: seq<string>)

  /** The `params` of `_buildSearchConstraints`: `None` is a key that is not present. */
  datatype ConstraintParams = ConstraintParams(
    path: Option<string>,
    tags: Option<Filter>,
    types: Option<Filter>,
    namespaces: Option<Filter>)

  /** `path.substr(0, 1) === '/'`: at most one leading slash is removed. */
  function StripSlash(path: string): (r: string)
  {
    if |path| > 0 && path[0] == '/' then path[1..] else path
  }

  /**
   * The items of a `tags` or `type` filter: a non-empty string is split on ",",
   * an array is used as given; the empty string has no `forEach` and throws.
   */
  function FilterItems(f: Filter, key: string): (r: Result<seq<string>, Exception>)
  {
    match f
    case Text(s) => if s != "" then Ok(Split(s, ',')) else Err(TypeError(key + ".forEach is not a function"))
    case List(xs) => Ok(xs)
  }

  /** The items of `namespaces`: any string is split, an absent one throws. */
  function NamespaceItems(f: Option<Filter>): (r: Result<seq<string>, Exception>)
  {
    match f
    case None => Err(TypeError("Cannot read properties of undefined (reading 'forEach')"))
    case Some(Text(s)) => Ok(Split(s, ','))
    case Some(List(xs)) => Ok(xs)
  }

  /** One constraint per item, in item order: `prefix + escape(item) + suffix`. */
  function Each(prefix: string, items: seq<string>, suffix: string, escape: string -> string): (r: seq<string>)
    ensures |r| == |items|
    ensures forall i :: 0 <= i < |items| ==> r[i] == prefix + escape(items[i]) + suffix
  {
    if items == [] then [] else [prefix + escape(items[0]) + suffix] + Each(prefix, items[1..], suffix, escape)
  }

  /** The `+path.ancestor:` constraint, when there is a path. */
  function PathConstraint(path: Option<string>, escape: string -> string): (r: seq<string>)
  {
    if path.Some? then ["+path.ancestor:" + escape(StripSlash(path.value))] else []
  }

  /** The constraints in their fixed order: path, tags, types, namespaces. */
  function ConstraintList(p: ConstraintParams, escape: string -> string): (r: Result<seq<string>, Exception>)
  {
    var pathPart := PathConstraint(p.path, escape);
    var tags :- if p.tags.Some? then FilterItems(p.tags.value, "tags") else Ok([]);
    var types :- if p.types.Some? then FilterItems(p.types.value, "types") else Ok([]);
    var namespaces :- NamespaceItems(p.namespaces);
    Ok(pathPart + Each("+tag:\"", tags, "\"", escape) + Each("+type:", types, "", escape)
       + Each("+namespace:", namespaces, "", escape))
  }

  /** The search constraint string: the constraints joined by spaces inside `+( … )`. */
  function SearchConstraint(p: ConstraintParams, escape: string -> string): (r: Result<string, Exception>)
  {
    var constraints :- ConstraintList(p, escape);
    Ok("+(" + Join(constraints, " ") + ")")
  }

  /** `constraints.push(prefix + escape(item) + suffix)` for every item, in order. */
  method PushEach(constraints: seq<string>, prefix: string, items: seq<string>, suffix: string,
                  escape: string -> string)
    returns (r: seq<string>)
    ensures r == constraints + Each(prefix, items, suffix, escape)
  {
    r := constraints;
    var i := 0;
    while i < |items|
      invariant 0 <= i <= |items|
      invariant r == constraints + Each(prefix, items[..i], suffix, escape)
    {
      var c := prefix + escape(items[i]) + suffix;
      EachSnoc(prefix, items, i, suffix, escape);
      assert constraints + Each(prefix, items[..i], suffix, escape) + [c]
             == constraints + (Each(prefix, items[..i], suffix, escape) + [c]);
      r := r + [c];
      i := i + 1;
    }
    assert items[..i] == items;
  }

  /** `_buildSearchConstraints(params)`. */
  method BuildSearchConstraints(p: ConstraintParams, escape: string -> string) returns (r: Result<string, Exception>)
    ensures r == SearchConstraint(p, escape)
  {
    var constraints: seq<string> := [];
    ghost var tagItems: seq<string> := [];
    ghost var typeItems: seq<string> := [];
    if p.path.Some? {
      var path := p.path.value;
      if |path| > 0 && path[0] == '/' {
        path := path[1..];
      }
      constraints := constraints + ["+path.ancestor:" + escape(path)];
    }
    ghost var pathPart := constraints;
    assert pathPart == PathConstraint(p.path, escape);
    if p.tags.Some? {
      var tags := FilterItems(p.tags.value, "tags");
      if tags.Err? {
        return Err(tags.error);
      }
      tagItems := tags.value;
      assert constraints == pathPart;
      constraints := PushEach(constraints, "+tag:\"", tags.value, "\"", escape);
    }
    ghost var tagPart := constraints;
    assert tagPart == pathPart + Each("+tag:\"", tagItems, "\"", escape);
    if p.types.Some? {
      var types := FilterItems(p.types.value, "types");
      if types.Err? {
        return Err(types.error);
      }
      typeItems := types.value;
      assert constraints == tagPart;
      constraints := PushEach(constraints, "+type:", types.value, "", escape);
    }
    var namespaces := NamespaceItems(p.namespaces);
    if namespaces.Err? {
      return Err(namespaces.error);
    }
    assert constraints == tagPart + Each("+type:", typeItems, "", escape);
    constraints := PushEach(constraints, "+namespace:", namespaces.value, "", escape);
    ConstraintListParts(p, escape, tagItems, typeItems, namespaces.value);
    return Ok("+(" + Join(constraints, " ") + ")");
  }

  lemma {:induction false} EachAppend(prefix: string, a: seq<string>, b: seq<string>, suffix: string,
                                      escape: string -> string)
    ensures Each(prefix, a + b, suffix, escape) == Each(prefix, a, suffix, escape) + Each(prefix, b, suffix, escape)
  {
    if a == [] {
      assert a + b == b;
    } else {
      assert (a + b)[0] == a[0] && (a + b)[1..] == a[1..] + b;
      EachAppend(prefix, a[1..], b, suffix, escape);
    }
  }

  /** Pushing one more item pushes one more constraint. */
  lemma EachSnoc(prefix: string, items: seq<string>, i: nat, suffix: string, escape: string -> string)
    requires i < |items|
    ensures Each(prefix, items[..i + 1], suffix, escape)
            == Each(prefix, items[..i], suffix, escape) + [prefix + escape(items[i]) + suffix]
  {
    EachAppend(prefix, items[..i], [items[i]], suffix, escape);
    assert items[..i] + [items[i]] == items[..i + 1];
  }

  /**
   * Building the constraint fails exactly when a `tags` or `type` filter is
   * the empty string or `namespaces` is missing; otherwise the result is
   * `+(` and `)` around the constraints.
   */
  lemma SearchConstraintFails(p: ConstraintParams, escape: string -> string)
    ensures SearchConstraint(p, escape).Err? <==>
            p.tags == Some(Text("")) || p.types == Some(Text("")) || p.namespaces.None?
    ensures SearchConstraint(p, escape).Ok? ==>
            var s := SearchConstraint(p, escape).value;
            |s| >= 3 && s[..2] == "+(" && s[|s| - 1] == ')'
  {
  }

  /** `tags`, `types` and `namespaces` are the items the three filters give (absent filters give none). */
  predicate ItemsOf(p: ConstraintParams, tags: seq<string>, types: seq<string>, namespaces: seq<string>)
  {
    && (if p.tags.Some? then FilterItems(p.tags.value, "tags") == Ok(tags) else tags == [])
    && (if p.types.Some? then FilterItems(p.types.value, "types") == Ok(types) else types == [])
    && NamespaceItems(p.namespaces) == Ok(namespaces)
  }

  /** The constraint list is the four groups one after another. */
  lemma ConstraintListParts(p: ConstraintParams, escape: string -> string,
                            tags: seq<string>, types: seq<string>, namespaces: seq<string>)
    requires ItemsOf(p, tags, types, namespaces)
    ensures ConstraintList(p, escape)
            == Ok(PathConstraint(p.path, escape) + Each("+tag:\"", tags, "\"", escape)
                  + Each("+type:", types, "", escape) + Each("+namespace:", namespaces, "", escape))
  {
  }

  /**
   * One constraint per item: the path constraint (when there is a path), then
   * one per tag, per type and per namespace; the path one comes first.
   */
  lemma ConstraintCount(p: ConstraintParams, escape: string -> string,
                        tags: seq<string>, types: seq<string>, namespaces: seq<string>)
    requires ItemsOf(p, tags, types, namespaces)
    ensures ConstraintList(p, escape).Ok?
    ensures |ConstraintList(p, escape).value|
            == (if p.path.Some? then 1 else 0) + |tags| + |types| + |namespaces|
    ensures p.path.Some? ==>
            ConstraintList(p, escape).value[0] == "+path.ancestor:" + escape(StripSlash(p.path.value))
  {
    ConstraintListParts(p, escape, tags, types, namespaces);
  }

  /** After the path constraint comes one `+tag:"…"` per tag, in tag order. */
  lemma ConstraintTags(p: ConstraintParams, escape: string -> string,
                       tags: seq<string>, types: seq<string>, namespaces: seq<string>,
                       l: seq<string>)
    requires ItemsOf(p, tags, types, namespaces)
    requires ConstraintList(p, escape) == Ok(l)
    ensures var k := |PathConstraint(p.path, escape)|;
            |l| >= k + |tags| &&
            forall i :: 0 <= i < |tags| ==> l[k + i] == "+tag:\"" + escape(tags[i]) + "\""
  {
    ConstraintListParts(p, escape, tags, types, namespaces);
    EachWithin(PathConstraint(p.path, escape), "+tag:\"", tags, "\"", escape,
               Each("+type:", types, "", escape) + Each("+namespace:", namespaces, "", escape));
  }

  /** After the tag constraints comes one `+type:…` per type, in type order. */
  lemma ConstraintTypes(p: ConstraintParams, escape: string -> string,
                        tags: seq<string>, types: seq<string>, namespaces: seq<string>,
                        l: seq<string>)
    requires ItemsOf(p, tags, types, namespaces)
    requires ConstraintList(p, escape) == Ok(l)
    ensures var k := |PathConstraint(p.path, escape)| + |tags|;
            |l| >= k + |types| &&
            forall i :: 0 <= i < |types| ==> l[k + i] == "+type:" + escape(types[i])
  {
    ConstraintListParts(p, escape, tags, types, namespaces);
    EachWithin(PathConstraint(p.path, escape) + Each("+tag:\"", tags, "\"", escape), "+type:", types, "", escape,
               Each("+namespace:", namespaces, "", escape));
  }

  /** The namespace constraints close the list, one `+namespace:…` per namespace, in order. */
  lemma ConstraintNamespaces(p: ConstraintParams, escape: string -> string,
                             tags: seq<string>, types: seq<string>, namespaces: seq<string>,
                             l: seq<string>)
    requires ItemsOf(p, tags, types, namespaces)
    requires ConstraintList(p, escape) == Ok(l)
    ensures |l| >= |namespaces|
    ensures forall i :: 0 <= i < |namespaces| ==> l[|l| - |namespaces| + i] == "+namespace:" + escape(namespaces[i])
  {
    ConstraintListParts(p, escape, tags, types, namespaces);
    EachLast(PathConstraint(p.path, escape) + Each("+tag:\"", tags, "\"", escape) + Each("+type:", types, "", escape),
             "+namespace:", namespaces, "", escape);
  }

  /** Where `Each`'s constraints land inside a longer list: right after `front`, in item order. */
  lemma EachWithin(front: seq<string>, prefix: string, items: seq<string>, suffix: string,
                   escape: string -> string, back: seq<string>)
    ensures var l := front + Each(prefix, items, suffix, escape) + back;
            && |l| == |front| + |items| + |back|
            && forall i :: 0 <= i < |items| ==> l[|front| + i] == prefix + escape(items[i]) + suffix
  {
    var e := Each(prefix, items, suffix, escape);
    var l := front + e + back;
    forall i | 0 <= i < |items|
      ensures l[|front| + i] == prefix + escape(items[i]) + suffix
    {
      assert l[|front| + i] == e[i];
    }
  }

  /** `Each`'s constraints at the end of a list, in item order. */
  lemma EachLast(front: seq<string>, prefix: string, items: seq<string>, suffix: string, escape: string -> string)
    ensures var l := front + Each(prefix, items, suffix, escape);
            && |l| >= |items|
            && forall i :: 0 <= i < |items| ==> l[|l| - |items| + i] == prefix + escape(items[i]) + suffix
  {
    var e := Each(prefix, items, suffix, escape);
    var l := front + e;
    forall i | 0 <= i < |items|
      ensures l[|l| - |items| + i] == prefix + escape(items[i]) + suffix
    {
      assert l[|l| - |items| + i] == e[i];
    }
  }

  /** Exactly one leading slash is removed: "//a" constrains to the ancestor "/a". */
  lemma StripOneSlash(rest: string)
    ensures StripSlash("/" + rest) == rest
    ensures |rest| > 0 && rest[0] != '/' ==> StripSlash(rest) == rest
  {
  }

  /** A comma-separated filter loses nothing: its items joined with "," give the string back. */
  lemma FilterTextItems(s: string, key: string)
    requires s != ""
    ensures FilterItems(Text(s), key).Ok?
    ensures Join(FilterItems(Text(s), key).value, ",") == s
    ensures forall i :: 0 <= i < |FilterItems(Text(s), key).value| ==> ',' !in FilterItems(Text(s), key).value[i]
  {
    JoinSplit(s, ',');
    SplitPiecesFree(s, ',');
  }

  // ---- Site.search ---------------------------------------------------------------

  /** The destructured options of `Site.search`; `None` is undefined, replaced by the default. */
  datatype SearchOptions = SearchOptions(
    limit: Option<int>,
    offset: Option<int>,
    q: Option<string>,
    path: Option<string>,
    recommendations: Option<bool>,
    tags: Option<Filter>,
    types: Option<Filter>,
    namespaces: Option<Filter>)

  /** The query parameters `Site.search` sends. */
  datatype SearchParams = SearchParams(
    limit: int,
    offset: int,
    sortBy: string,
    q: string,
    summarypath: string,
    constraint: string,
    recommendations: bool)

  function Default<T>(o: Option<T>, d: T): (r: T)
  {
    if o.Some? then o.value else d
  }

  /**
   * The constraint object of `Site.search`: the path only when it is neither
   * '' nor '/', tags and type only when they are not '', namespaces always.
   */
  function SelectConstraints(path: string, tags: Filter, types: Filter, namespaces: Filter): (r: ConstraintParams)
  {
    ConstraintParams(
      if path != "" && path != "/" then Some(path) else None,
      if tags != Text("") then Some(tags) else None,
      if types != Text("") then Some(types) else None,
      Some(namespaces))
  }

  /** The constraint `Site.search` selects can always be built. */
  lemma SelectedConstraintsBuild(path: string, tags: Filter, types: Filter, namespaces: Filter,
                                 escape: string -> string)
    ensures SearchConstraint(SelectConstraints(path, tags, types, namespaces), escape).Ok?
  {
    SearchConstraintFails(SelectConstraints(path, tags, types, namespaces), escape);
  }

  /** `Site.search(options)` up to the request: the defaults, the constraint and the query parameters. */
  method Search(opts: SearchOptions, escape: string -> string, encodeURI: string -> string)
    returns (params: SearchParams)
    ensures params.constraint ==
            SearchConstraint(SelectConstraints(Default(opts.path, ""), Default(opts.tags, Text("")),
                                               Default(opts.types, Text("")), Default(opts.namespaces, Text("main"))),
                             escape).value
    ensures params == SearchParams(Default(opts.limit, 10), Default(opts.offset, 0), "-date,-rank",
                                   Default(opts.q, ""), encodeURI(Default(opts.path, "")),
                                   params.constraint, Default(opts.recommendations, true))
  {
    var path := Default(opts.path, "");
    var tags := Default(opts.tags, Text(""));
    var types := Default(opts.types, Text(""));
    var namespaces := Default(opts.namespaces, Text("main"));
    var constraint := ConstraintParams(None, None, None, None);
    if path != "" && path != "/" {
      constraint := constraint.(path := Some(path));
    }
    if tags != Text("") {
      constraint := constraint.(tags := Some(tags));
    }
    if types != Text("") {
      constraint := constraint.(types := Some(types));
    }
    constraint := constraint.(namespaces := Some(namespaces));
    assert constraint == SelectConstraints(path, tags, types, namespaces);
    SelectedConstraintsBuild(path, tags, types, namespaces, escape);
    var built := BuildSearchConstraints(constraint, escape);
    params := SearchParams(Default(opts.limit, 10), Default(opts.offset, 0), "-date,-rank",
                           Default(opts.q, ""), encodeURI(path), built.value, Default(opts.recommendations, true));
  }

  // ---- batch tag updates ------------------------------------------------------------

  /** One element of `data.add` or `data.remove`; page IDs are already rendered as text. */
  datatype TagEdit = TagEdit(name: string, pageids: seq<string>)

  /** `data` of `_getBatchTagsTemplate`: `None` is a missing key or a value that is not an array. */
  datatype TagBatch = TagBatch(add: Option<seq<TagEdit>>, remove: Option<seq<TagEdit>>)

  const BatchHeader := "<?xml version=\"1.0\"?><tags>"
  const BatchFooter := "</tags>"

  /** The template literal `<page id="${id}"></page>`. */
  function PageElement(id: string): (r: string)
  {
    "<page id=\"" + id + "\"></page>"
  }

  /** One page element per ID, in order. */
  function PageElements(ids: seq<string>): (r: string)
  {
    if ids == [] then "" else PageElement(ids[0]) + PageElements(ids[1..])
  }

  /** The opening tag `<tag.add value="${escapeHTML(name)}">` (or `tag.remove`). */
  function TagOpen(tag: string, escapeHTML: string -> string, name: string): (r: string)
  {
    "<" + tag + " value=\"" + escapeHTML(name) + "\">"
  }

  function TagClose(tag: string): (r: string)
  {
    "</" + tag + ">"
  }

  /** The opening tag, the page elements, and the closing tag. */
  function TagBlock(tag: string, escapeHTML: string -> string, e: TagEdit): (r: string)
  {
    TagOpen(tag, escapeHTML, e.name) + PageElements(e.pageids) + TagClose(tag)
  }

  /** One block per edit, in order. */
  function TagBlocks(tag: string, escapeHTML: string -> string, edits: seq<TagEdit>): (r: string)
  {
    if edits == [] then "" else TagBlock(tag, escapeHTML, edits[0]) + TagBlocks(tag, escapeHTML, edits[1..])
  }

  /** The edits a key contributes: none when it is missing or not an array. */
  function Edits(o: Option<seq<TagEdit>>): (r: seq<TagEdit>)
  {
    if o.Some? then o.value else []
  }

  /** The batch document: all `tag.add` blocks, then all `tag.remove` blocks. */
  function BatchTagsDocument(batch: TagBatch, escapeHTML: string -> string): (r: string)
  {
    BatchHeader + TagBlocks("tag.add", escapeHTML, Edits(batch.add))
    + TagBlocks("tag.remove", escapeHTML, Edits(batch.remove)) + BatchFooter
  }

  lemma {:induction false} PageElementsAppend(a: seq<string>, b: seq<string>)
    ensures PageElements(a + b) == PageElements(a) + PageElements(b)
  {
    if a == [] {
      assert a + b == b;
    } else {
      assert (a + b)[0] == a[0] && (a + b)[1..] == a[1..] + b;
      PageElementsAppend(a[1..], b);
    }
  }

  /** Appending one ID appends one page element. */
  lemma PageElementsSnoc(ids: seq<string>, j: nat)
    requires j < |ids|
    ensures PageElements(ids[..j + 1]) == PageElements(ids[..j]) + PageElement(ids[j])
  {
    PageElementsAppend(ids[..j], [ids[j]]);
    assert ids[..j] + [ids[j]] == ids[..j + 1];
    assert [ids[j]][1..] == [];
  }

  lemma {:induction false} TagBlocksAppend(tag: string, escapeHTML: string -> string, a: seq<TagEdit>, b: seq<TagEdit>)
    ensures TagBlocks(tag, escapeHTML, a + b) == TagBlocks(tag, escapeHTML, a) + TagBlocks(tag, escapeHTML, b)
  {
    if a == [] {
      assert a + b == b;
    } else {
      assert (a + b)[0] == a[0] && (a + b)[1..] == a[1..] + b;
      TagBlocksAppend(tag, escapeHTML, a[1..], b);
    }
  }

  /** Appending one edit appends one block. */
  lemma TagBlocksSnoc(tag: string, escapeHTML: string -> string, edits: seq<TagEdit>, i: nat)
    requires i < |edits|
    ensures TagBlocks(tag, escapeHTML, edits[..i + 1])
            == TagBlocks(tag, escapeHTML, edits[..i]) + TagBlock(tag, escapeHTML, edits[i])
  {
    TagBlocksAppend(tag, escapeHTML, edits[..i], [edits[i]]);
    assert edits[..i] + [edits[i]] == edits[..i + 1];
    assert [edits[i]][1..] == [];
  }

  /** `elm.pageids.forEach((id) => { tagStr += … })`: one page element per ID, appended in order. */
  method AppendPages(tagStr: string, ids: seq<string>) returns (r: string)
    ensures r == tagStr + PageElements(ids)
  {
    r := tagStr;
    var j := 0;
    while j < |ids|
      invariant 0 <= j <= |ids|
      invariant r == tagStr + PageElements(ids[..j])
    {
      PageElementsSnoc(ids, j);
      r := r + PageElement(ids[j]);
      j := j + 1;
    }
    assert ids[..j] == ids;
  }

  /**
   * `data.add.forEach(…)` (or `data.remove`): the blocks of one key, each
   * `tagStr` grown page by page and then appended to the document.
   */
  method AppendBlocks(tag: string, escapeHTML: string -> string, edits: seq<TagEdit>) returns (blocks: string)
    ensures blocks == TagBlocks(tag, escapeHTML, edits)
  {
    blocks := "";
    var i := 0;
    while i < |edits|
      invariant 0 <= i <= |edits|
      invariant blocks == TagBlocks(tag, escapeHTML, edits[..i])
    {
      var elm := edits[i];
      var tagStr := TagOpen(tag, escapeHTML, elm.name);
      tagStr := AppendPages(tagStr, elm.pageids);
      tagStr := tagStr + TagClose(tag);
      TagBlocksSnoc(tag, escapeHTML, edits, i);
      blocks := blocks + tagStr;
      i := i + 1;
    }
    assert edits[..i] == edits;
  }

  /** `_getBatchTagsTemplate(data)`. */
  method GetBatchTagsTemplate(batch: TagBatch, escapeHTML: string -> string) returns (xml: string)
    ensures xml == BatchTagsDocument(batch, escapeHTML)
  {
    ghost var adds := TagBlocks("tag.add", escapeHTML, Edits(batch.add));
    ghost var removes := TagBlocks("tag.remove", escapeHTML, Edits(batch.remove));
    xml := BatchHeader;
    if batch.add.Some? && |batch.add.value| > 0 {
      var blocks := AppendBlocks("tag.add", escapeHTML, batch.add.value);
      xml := xml + blocks;
    } else {
      assert adds == "";
      assert xml == BatchHeader + adds;
    }
    assert xml == BatchHeader + adds;
    if batch.remove.Some? && |batch.remove.value| > 0 {
      var blocks := AppendBlocks("tag.remove", escapeHTML, batch.remove.value);
      xml := xml + blocks;
    } else {
      assert removes == "";
      assert xml == BatchHeader + adds + removes;
    }
    xml := xml + BatchFooter;
  }

  /**
   * The batch document starts with the XML declaration and `<tags>`, ends with
   * `</tags>`, and between them holds the `tag.add` blocks and then the
   * `tag.remove` blocks; a missing or empty list contributes nothing.
   */
  lemma BatchTagsShape(batch: TagBatch, escapeHTML: string -> string)
    ensures var doc := BatchTagsDocument(batch, escapeHTML);
            var adds := TagBlocks("tag.add", escapeHTML, Edits(batch.add));
            var removes := TagBlocks("tag.remove", escapeHTML, Edits(batch.remove));
            && |doc| == |BatchHeader| + |adds| + |removes| + |BatchFooter|
            && doc[..|BatchHeader|] == BatchHeader
            && doc[|BatchHeader|..|BatchHeader| + |adds|] == adds
            && doc[|BatchHeader| + |adds|..|doc| - |BatchFooter|] == removes
            && doc[|doc| - |BatchFooter|..] == BatchFooter
    ensures batch.add.None? || batch.add == Some([]) ==>
            TagBlocks("tag.add", escapeHTML, Edits(batch.add)) == "" &&
            BatchTagsDocument(batch, escapeHTML) == BatchTagsDocument(batch.(add := None), escapeHTML)
    ensures batch.remove.None? || batch.remove == Some([]) ==>
            TagBlocks("tag.remove", escapeHTML, Edits(batch.remove)) == "" &&
            BatchTagsDocument(batch, escapeHTML) == BatchTagsDocument(batch.(remove := None), escapeHTML)
  {
  }

  /** A block holds one page element per ID, in input order: splitting the IDs splits the elements. */
  lemma PageElementsOrder(ids: seq<string>, k: nat)
    requires k <= |ids|
    ensures PageElements(ids) == PageElements(ids[..k]) + PageElements(ids[k..])
    ensures k < |ids| ==>
            PageElements(ids[k..]) == PageElement(ids[k]) + PageElements(ids[k + 1..])
  {
    PageElementsAppend(ids[..k], ids[k..]);
    assert ids[..k] + ids[k..] == ids;
    if k < |ids| {
      assert ids[k..][1..] == ids[k + 1..];
    }
  }
}

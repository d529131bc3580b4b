/** The decisions `generateInterfaceCode` makes before it fills its template:
    the literal union type of the path and query parameter names, the request
    headers it keeps, the request body type, the comment flags (with the
    override for Swagger servers) and the placement of extra comment tags. */
module InterfaceCode {
  import opened Wrappers
  import opened Text
  import opened Seqs
  import opened Config
  import opened Remote

  const Quote: char := '\''
  const UnionSeparator: string := "' | '"

  /** `names.length === 0 ? 'string' : `'${names.join("' | '")}'``. */
  function NameUnionType(names: seq<string>): string
  {
    if |names| == 0 then "string" else [Quote] + Join(names, UnionSeparator) + [Quote]
  }

  predicate QuoteFree(s: string)
  {
    forall i :: 0 <= i < |s| ==> s[i] != Quote
  }

  /** The position of the first quote in s, or |s| when there is none. */
  function QuoteIndex(s: string): (i: nat)
    ensures i <= |s|
    ensures forall j :: 0 <= j < i ==> s[j] != Quote
    ensures i < |s| ==> s[i] == Quote
  {
    if s == [] || s[0] == Quote then 0 else 1 + QuoteIndex(s[1..])
  }

  /** Reads `name' | 'name' | ... | 'name'` (the opening quote already read). */
  function ParseQuoted(s: string): Option<seq<string>>
    decreases |s|
  {
    var i := QuoteIndex(s);
    if i == |s| then None
    else
      var rest := s[i + 1..];
      if rest == [] then Some([s[..i]])
      else if |rest| >= 4 && rest[..4] == " | '" then
        match ParseQuoted(rest[4..])
        case Some(names) => Some([s[..i]] + names)
        case None => None
      else None
  }

  /** Reads a union type back into its names. */
  function ParseUnionType(t: string): Option<seq<string>>
  {
    if t == "string" then Some([])
    else if |t| > 0 && t[0] == Quote then ParseQuoted(t[1..])
    else None
  }

  lemma QuoteIndexOfQuoteFree(name: string, rest: string)
    requires QuoteFree(name)
    requires |rest| > 0 && rest[0] == Quote
    ensures QuoteIndex(name + rest) == |name|
  {
    var s := name + rest;
    var i := QuoteIndex(s);
    assert s[|name|] == Quote;
    assert forall j :: 0 <= j < |name| ==> s[j] == name[j];
  }

  /** One quoted name followed by the end of the text or by a separator. */
  lemma ParseQuotedStep(name: string, tail: string)
    requires QuoteFree(name)
    ensures ParseQuoted(name + [Quote]) == Some([name])
    ensures ParseQuoted(name + UnionSeparator + tail) ==
      match ParseQuoted(tail) case Some(names) => Some([name] + names) case None => None
  {
    var s1 := name + [Quote];
    QuoteIndexOfQuoteFree(name, [Quote]);
    assert s1[..|name|] == name && s1[|name| + 1..] == [];
    var s2 := name + UnionSeparator + tail;
    assert s2 == name + (UnionSeparator + tail);
    QuoteIndexOfQuoteFree(name, UnionSeparator + tail);
    assert s2[..|name|] == name;
    var rest := s2[|name| + 1..];
    assert rest == " | '" + tail;
    assert rest[..4] == " | '" && rest[4..] == tail;
  }

  /** The joined names of a list of two or more, with the closing quote: the
      first name, a separator, and the rest joined and closed. */
  lemma JoinedCons(names: seq<string>)
    requires |names| > 1
    ensures Join(names, UnionSeparator) + [Quote] == names[0] + UnionSeparator + (Join(names[1..], UnionSeparator) + [Quote])
  {
    var joined := Join(names[1..], UnionSeparator);
    assert Join(names, UnionSeparator) == names[0] + UnionSeparator + joined;
    assert names[0] + UnionSeparator + joined + [Quote] == names[0] + UnionSeparator + (joined + [Quote]);
  }

  lemma {:induction false} ParseQuotedJoin(names: seq<string>)
    requires |names| > 0
    requires forall k :: 0 <= k < |names| ==> QuoteFree(names[k])
    ensures ParseQuoted(Join(names, UnionSeparator) + [Quote]) == Some(names)
  {
    if |names| == 1 {
      ParseQuotedStep(names[0], []);
      assert Join(names, UnionSeparator) == names[0];
      assert names == [names[0]];
    } else {
      var rest := names[1..];
      assert forall k :: 0 <= k < |rest| ==> rest[k] == names[k + 1];
      var tail := Join(rest, UnionSeparator) + [Quote];
      ParseQuotedJoin(rest);
      JoinedCons(names);
      ParseQuotedStep(names[0], tail);
      assert [names[0]] + rest == names;
    }
  }

  /** The union type lists the names, and they can be read back from it as long
      as none contains a quote. */
  lemma NameUnionTypeRoundTrip(names: seq<string>)
    requires forall k :: 0 <= k < |names| ==> QuoteFree(names[k])
    ensures ParseUnionType(NameUnionType(names)) == Some(names)
  {
    if |names| > 0 {
      var t := NameUnionType(names);
      assert t[0] == Quote;
      assert t[1..] == Join(names, UnionSeparator) + [Quote];
      assert t != "string" by { assert "string"[0] != Quote; }
      ParseQuotedJoin(names);
    }
  }

  /** ASCII `toLowerCase`. */
  function LowerChar(c: char): char
  {
    if 'A' <= c <= 'Z' then (c as int + 32) as char else c
  }

  /** Lower-cases the ASCII letters: the result has no upper-case ASCII
      letter, and each character either stays or is the upper-case letter it
      replaces moved down to lower case. */
  function Lower(s: string): (r: string)
    ensures |r| == |s|
    ensures forall i :: 0 <= i < |r| ==> !('A' <= r[i] <= 'Z')
    ensures forall i :: 0 <= i < |s| ==> r[i] == s[i] || ('A' <= s[i] <= 'Z' && r[i] as int == s[i] as int + 32)
  {
    seq(|s|, i requires 0 <= i < |s| => LowerChar(s[i]))
  }

  /** Lower-casing twice is lower-casing once. */
  lemma LowerIdempotent(s: string)
    ensures Lower(Lower(s)) == Lower(s)
  {
  }

  /** `name.toLowerCase() === 'content-type'` holds exactly for the names
      that spell content-type in any mix of ASCII case. */
  lemma LowerIsContentType(s: string)
    ensures Lower(s) == "content-type" <==>
      |s| == 12 && forall i :: 0 <= i < 12 ==> s[i] == "content-type"[i] || s[i] == "CONTENT-TYPE"[i]
  {
  }

  predicate IsContentType(h: Header)
  {
    Lower(h.name) == "content-type"
  }

  /** The `reduce` over the headers that are not `content-type`, in any case:
      each sets its name to its value, later ones overwriting earlier ones. */
  function RequestHeaders(headers: seq<Header>): map<string, string>
    decreases |headers|
  {
    if headers == [] then map[]
    else
      var acc := RequestHeaders(headers[..|headers| - 1]);
      var h := headers[|headers| - 1];
      if IsContentType(h) then acc else acc[h.name := h.value]
  }

  /** A header name is kept exactly when some header with that name is not a
      content type, and it maps to the value of the last such header. */
  lemma {:induction false} RequestHeadersLastWins(headers: seq<Header>, name: string)
    ensures name in RequestHeaders(headers) <==>
      exists k :: 0 <= k < |headers| && headers[k].name == name && !IsContentType(headers[k])
    ensures forall k :: (0 <= k < |headers| && headers[k].name == name && !IsContentType(headers[k]) &&
      (forall j :: k < j < |headers| ==> headers[j].name != name)) ==>
        name in RequestHeaders(headers) && RequestHeaders(headers)[name] == headers[k].value
    decreases |headers|
  {
    if headers != [] {
      var n := |headers| - 1;
      var init := headers[..n];
      RequestHeadersLastWins(init, name);
      assert forall k :: 0 <= k < n ==> init[k] == headers[k];
    }
  }

  /** No content-type header survives, whatever its case. */
  lemma RequestHeadersDropContentType(headers: seq<Header>)
    ensures forall name :: name in RequestHeaders(headers) ==> Lower(name) != "content-type"
  {
    forall name | name in RequestHeaders(headers) ensures Lower(name) != "content-type" {
      RequestHeadersLastWins(headers, name);
      var k :| 0 <= k < |headers| && headers[k].name == name && !IsContentType(headers[k]);
    }
  }

  /** `RequestBodyType`: a GET sends its data as a query, any other method the
      declared body type, 'none' when none is declared. */
  function RequestBodyType(httpMethod: string, reqBodyType: string): (r: string)
    ensures r != ""
    ensures r == reqBodyType || r == "query" || r == "none"
    ensures httpMethod == "GET" ==> r == "query"
    ensures httpMethod != "GET" && reqBodyType != "" ==> r == reqBodyType
    ensures httpMethod != "GET" && reqBodyType == "" ==> r == "none"
  {
    if httpMethod == "GET" then "query" else if reqBodyType != "" then reqBodyType else "none"
  }

  /** The seven comment switches after defaults and the Swagger override. */
  datatype CommentFlags = CommentFlags(
    enabled: bool, title: bool, category: bool, tag: bool, requestHeader: bool, updateTime: bool, link: bool)

  /** A destructured switch with default `true`: only `undefined` takes the
      default, any other value counts by its truthiness. */
  predicate Switch(comment: Layer, field: string)
  {
    Get(comment, field) == Undefined || Truthy(Get(comment, field))
  }

  /** `{...comment, ...(serverType === 'swagger' ? {tag: false, updateTime: false, link: false} : {})}`. */
  function EffectiveComment(comment: Layer, serverType: Value): Layer
  {
    if serverType == Str("swagger") then
      comment["tag" := Bool(false)]["updateTime" := Bool(false)]["link" := Bool(false)]
    else comment
  }

  function ResolveCommentFlags(comment: Layer, serverType: Value): CommentFlags
  {
    var c := EffectiveComment(comment, serverType);
    CommentFlags(Switch(c, "enabled"), Switch(c, "title"), Switch(c, "category"), Switch(c, "tag"),
      Switch(c, "requestHeader"), Switch(c, "updateTime"), Switch(c, "link"))
  }

  /** A Swagger server never gets tags, update times or links in comments, and
      its other switches are those of the configuration. */
  lemma SwaggerOverridesComment(comment: Layer)
    ensures var f := ResolveCommentFlags(comment, Str("swagger"));
      var g := ResolveCommentFlags(comment, Undefined);
      && !f.tag && !f.updateTime && !f.link
      && f.enabled == g.enabled && f.title == g.title && f.category == g.category
      && f.requestHeader == g.requestHeader
  {
  }

  /** Off any Swagger server, a switch is off exactly when the configuration
      sets it to a falsy value other than `undefined`. */
  lemma CommentSwitchDefaults(comment: Layer, serverType: Value)
    requires serverType != Str("swagger")
    ensures var f := ResolveCommentFlags(comment, serverType);
      && (!f.tag <==> "tag" in comment && comment["tag"] != Undefined && !Truthy(comment["tag"]))
      && (!f.link <==> "link" in comment && comment["link"] != Undefined && !Truthy(comment["link"]))
      && (!f.enabled <==> "enabled" in comment && comment["enabled"] != Undefined && !Truthy(comment["enabled"]))
  {
  }

  /** A line of the comment summary; `false` entries (switched-off lines) are `Off`. */
  datatype SummaryItem = Off | Item(caption: string, value: seq<string>)

  /** An extra tag returned by the `extraTags` callback. */
  datatype ExtraTag = ExtraTag(name: string, value: seq<string>, atStart: bool)

  function TagItem(t: ExtraTag): SummaryItem
  {
    Item(t.name, t.value)
  }

  /** The items of the tags placed at the start, in declaration order. */
  function StartItems(tags: seq<ExtraTag>): seq<SummaryItem>
  {
    if tags == [] then []
    else (if tags[0].atStart then [TagItem(tags[0])] else []) + StartItems(tags[1..])
  }

  /** The items of the tags placed at the end, in declaration order. */
  function EndItems(tags: seq<ExtraTag>): seq<SummaryItem>
  {
    if tags == [] then []
    else (if tags[0].atStart then [] else [TagItem(tags[0])]) + EndItems(tags[1..])
  }

  function Reverse<T>(s: seq<T>): (r: seq<T>)
    ensures |r| == |s|
    ensures forall i :: 0 <= i < |s| ==> r[i] == s[|s| - 1 - i]
  {
    if s == [] then [] else Reverse(s[1..]) + [s[0]]
  }

  lemma {:induction false} StartAppend(tags: seq<ExtraTag>, t: ExtraTag)
    ensures StartItems(tags + [t]) == StartItems(tags) + (if t.atStart then [TagItem(t)] else [])
  {
    if tags == [] {
      assert tags + [t] == [t];
    } else {
      var h := if tags[0].atStart then [TagItem(tags[0])] else [];
      var e := if t.atStart then [TagItem(t)] else [];
      assert (tags + [t])[0] == tags[0];
      assert (tags + [t])[1..] == tags[1..] + [t];
      StartAppend(tags[1..], t);
      assert h + (StartItems(tags[1..]) + e) == (h + StartItems(tags[1..])) + e;
    }
  }

  lemma {:induction false} EndAppend(tags: seq<ExtraTag>, t: ExtraTag)
    ensures EndItems(tags + [t]) == EndItems(tags) + (if t.atStart then [] else [TagItem(t)])
  {
    if tags == [] {
      assert tags + [t] == [t];
    } else {
      var h := if tags[0].atStart then [] else [TagItem(tags[0])];
      var e := if t.atStart then [] else [TagItem(t)];
      assert (tags + [t])[0] == tags[0];
      assert (tags + [t])[1..] == tags[1..] + [t];
      EndAppend(tags[1..], t);
      assert h + (EndItems(tags[1..]) + e) == (h + EndItems(tags[1..])) + e;
    }
  }

  /** The `for (const tag of tags)` loop as written: a start tag is `unshift`ed
      in front of everything placed so far, an end tag is `push`ed. Several
      start tags therefore come out in reverse declaration order. */
  method PlaceExtraTags(summary: seq<SummaryItem>, tags: seq<ExtraTag>) returns (r: seq<SummaryItem>)
    ensures r == Reverse(StartItems(tags)) + summary + EndItems(tags)
  {
    r := summary;
    var k := 0;
    while k < |tags|
      invariant 0 <= k <= |tags|
      invariant r == Reverse(StartItems(tags[..k])) + summary + EndItems(tags[..k])
    {
      var t := tags[k];
      assert tags[..k + 1] == tags[..k] + [t];
      PlaceOne(tags[..k], t, summary);
      if t.atStart {
        r := [TagItem(t)] + r;
      } else {
        r := r + [TagItem(t)];
      }
      k := k + 1;
    }
    assert tags[..k] == tags;
  }

  /** One more tag: unshifted when it goes to the start, pushed otherwise. */
  lemma PlaceOne(tags: seq<ExtraTag>, t: ExtraTag, summary: seq<SummaryItem>)
    ensures var before := Reverse(StartItems(tags)) + summary + EndItems(tags);
      var after := Reverse(StartItems(tags + [t])) + summary + EndItems(tags + [t]);
      after == if t.atStart then [TagItem(t)] + before else before + [TagItem(t)]
  {
    StartAppend(tags, t);
    EndAppend(tags, t);
    if t.atStart {
      ReverseSnoc(StartItems(tags), TagItem(t));
    }
  }

  lemma ReverseSnoc<T>(s: seq<T>, x: T)
    ensures Reverse(s + [x]) == [x] + Reverse(s)
  {
    var r := Reverse(s + [x]);
    assert forall i :: 1 <= i < |r| ==> r[i] == Reverse(s)[i - 1];
  }

  /** Two start tags, as written, come out swapped. */
  lemma StartTagsReversed(a: ExtraTag, b: ExtraTag, summary: seq<SummaryItem>)
    requires a.atStart && b.atStart && TagItem(a) != TagItem(b)
    ensures Reverse(StartItems([a, b])) + summary + EndItems([a, b]) == [TagItem(b), TagItem(a)] + summary
    ensures PlacedInOrder(summary, [a, b]) == [TagItem(a), TagItem(b)] + summary
  {
    assert [a, b][1..] == [b] && [b][1..] == [];
    assert StartItems([b]) == [TagItem(b)] && EndItems([b]) == [];
    assert StartItems([a, b]) == [TagItem(a), TagItem(b)];
    assert EndItems([a, b]) == [];
    assert Reverse([TagItem(a), TagItem(b)]) == [TagItem(b), TagItem(a)];
  }

  /** Extra tags placed as evidently intended: the start tags in declaration
      order before the summary, the end tags in declaration order after it. */
  function PlacedInOrder(summary: seq<SummaryItem>, tags: seq<ExtraTag>): seq<SummaryItem>
  {
    StartItems(tags) + summary + EndItems(tags)
  }

  /** The start items are exactly the start tags, in declaration order. */
  lemma {:induction false} StartItemsAreStartTags(tags: seq<ExtraTag>)
    ensures StartItems(tags) == MapSeq(Filter(tags, IsStart), TagItem)
  {
    if tags != [] {
      StartItemsAreStartTags(tags[1..]);
    }
  }

  predicate IsStart(t: ExtraTag)
  {
    t.atStart
  }

  predicate IsEnd(t: ExtraTag)
  {
    !t.atStart
  }

  /** The end items are exactly the end tags, in declaration order. */
  lemma {:induction false} EndItemsAreEndTags(tags: seq<ExtraTag>)
    ensures EndItems(tags) == MapSeq(Filter(tags, IsEnd), TagItem)
  {
    if tags != [] {
      EndItemsAreEndTags(tags[1..]);
    }
  }

  /** Placed in order, the summary sits between the start and end tags, and
      every tag appears once, on its declared side, in its declared order. */
  lemma PlacedInOrderShape(summary: seq<SummaryItem>, tags: seq<ExtraTag>)
    ensures var r := PlacedInOrder(summary, tags);
      && r[|StartItems(tags)|..|StartItems(tags)| + |summary|] == summary
      && |r| == |summary| + |tags|
      && r[..|StartItems(tags)|] == MapSeq(Filter(tags, IsStart), TagItem)
      && r[|StartItems(tags)| + |summary|..] == MapSeq(Filter(tags, IsEnd), TagItem)
  {
    StartItemsAreStartTags(tags);
    EndItemsAreEndTags(tags);
    StartEndCount(tags);
    var r := PlacedInOrder(summary, tags);
    assert r[..|StartItems(tags)|] == StartItems(tags);
    assert r[|StartItems(tags)| + |summary|..] == EndItems(tags);
  }

  lemma {:induction false} StartEndCount(tags: seq<ExtraTag>)
    ensures |StartItems(tags)| + |EndItems(tags)| == |tags|
  {
    if tags != [] {
      StartEndCount(tags[1..]);
    }
  }
}

/**
 * `DashboardLink`: a link from a panel or a dashboard to another dashboard.
 * Its encoding writes the link's `uri` twice, as `dashUri` and as `url`, and
 * fills in the title from the dashboard's name; reading it back renames
 * `dashUri` to `uri` and drops `url`.
 */
module Links {
  import opened Wire
  import opened Objects
  import opened Transform
  import opened Records

  /** A dashboard link; `kind` is the `type` attribute. */
  datatype DashboardLink = DashboardLink(
    dashboard: Json, uri: Json, keepTime: bool, title: Json, kind: Json, asDropdown: Json,
    icon: Json, includeVars: Json, tags: Json, targetBlank: Json, url: Json)

  /** `DASHBOARD_TYPE`. */
  const DASHBOARD_TYPE := "dashboard"

  /** `DashboardLink()`. */
  const DEFAULT_LINK := DashboardLink(JNull, JNull, true, JNull, JStr(DASHBOARD_TYPE), JNull,
    JNull, JNull, JArr([]), JNull, JNull)

  /** The key written for `uri` under another name, and the attribute it is read into. */
  const LINK_WIRE_NAMES: seq<string> := ["dashUri"]
  const LINK_RENAMED: seq<string> := ["uri"]

  /** The other keys of the encoding; `url` is the one at index 4. */
  const LINK_REST: seq<string> :=
    ["dashboard", "keepTime", "title", "type", "url", "icon", "includeVars", "tags", "targetBlank", "asDropdown"]

  /** The constructor's parameters, as bound by the decoder. */
  const LINK_PARAMS: seq<string> := LINK_RENAMED + LINK_REST

  lemma LinkKeysSeparate()
    ensures Separate(LINK_WIRE_NAMES, LINK_RENAMED, LINK_REST)
    ensures |LINK_PARAMS| == 11 && Distinct(LINK_PARAMS) && LINK_PARAMS[5] == "url"
  {
    DistinctConcat(LINK_RENAMED, LINK_REST);
  }

  /** The title written out: the stored one, or the dashboard's name when it is unset. */
  function LinkTitle(l: DashboardLink): (title: Json)
    ensures title.JNull? <==> l.title.JNull? && l.dashboard.JNull?
    ensures !l.title.JNull? ==> title == l.title
  {
    if l.title.JNull? then l.dashboard else l.title
  }

  function LinkValues(l: DashboardLink): (vals: seq<Json>)
    ensures |vals| == 11
  {
    [l.uri, l.dashboard, JBool(l.keepTime), LinkTitle(l), l.kind, l.uri,
     l.icon, l.includeVars, l.tags, l.targetBlank, l.asDropdown]
  }

  /** `DashboardLink.to_json_data`. */
  function EncodeLink(l: DashboardLink): (e: Json)
    ensures WritesKeys(e, LINK_WIRE_NAMES + LINK_REST)
  {
    ObjectOfWrites(LINK_WIRE_NAMES + LINK_REST, LinkValues(l));
    JObj(ObjectOf(LINK_WIRE_NAMES + LINK_REST, LinkValues(l)))
  }

  /** The link the arguments build, once `keepTime` passed its validator. */
  function LinkOf(a: seq<Option<Json>>, keepTime: bool): DashboardLink
    requires |a| == |LINK_PARAMS|
  {
    DashboardLink(Given(a[1], JNull), Given(a[0], JNull), keepTime, Given(a[3], JNull),
      Given(a[4], JStr(DASHBOARD_TYPE)), Given(a[10], JNull), Given(a[6], JNull),
      Given(a[7], JNull), Given(a[8], JArr([])), Given(a[9], JNull), Given(a[5], JNull))
  }

  /**
   * The dict the constructor receives: `dashUri` renamed to `uri`, then
   * `url` popped.
   */
  function LinkArguments(d: Object): (m: Object)
    ensures "url" !in m
  {
    TransformDict(d, Renames(LINK_WIRE_NAMES, LINK_RENAMED)) - {"url"}
  }

  /** `DashboardLink.parse_json_data`. */
  function DecodeLink(data: Json): (r: Result<DashboardLink>)
    ensures r.Ok? ==> r.value.url == JNull
    ensures r.Ok? ==> DictOf(data).Ok? && CheckCall(LinkArguments(DictOf(data).value), LINK_PARAMS, {}).Ok?
  {
    var d :- DictOf(data);
    var m := LinkArguments(d);
    var _ :- CheckCall(m, LINK_PARAMS, {});
    var a := Arguments(m, LINK_PARAMS);
    var keepTime :- BoolArg(a[2], true);
    Ok(LinkOf(a, keepTime))
  }

  /** What a link reads back as: its title filled in, its `url` dropped. */
  function CanonLink(l: DashboardLink): DashboardLink {
    l.(title := LinkTitle(l), url := JNull)
  }

  lemma LinkOfValues(l: DashboardLink)
    ensures LinkOf(Somes(LinkValues(l))[5 := None], l.keepTime) == CanonLink(l)
  {
  }

  /** A link reads back with its title filled in and its `url` dropped, and otherwise unchanged. */
  lemma LinkRoundTrip(l: DashboardLink)
    ensures DecodeLink(EncodeLink(l)) == Ok(CanonLink(l))
  {
    var vals := LinkValues(l);
    LinkKeysSeparate();
    BindRenamed(LINK_WIRE_NAMES, LINK_RENAMED, LINK_REST, vals, {});
    BindWithout(LINK_PARAMS, vals, 5, {});
    LinkOfValues(l);
  }

  /** A list of links, as panels, rows and dashboards write it. */
  function EncodeLinks(ls: seq<DashboardLink>): Json {
    JArr(Map(EncodeLink, ls))
  }

  /** `foreach(DashboardLink.parse_json_data)`, the rule applied to `links`. */
  function DecodeLinks(data: Json): Result<seq<DashboardLink>> {
    Foreach(DecodeLink, data)
  }

  /** A list of links reads back as the list of what each link reads back as. */
  lemma LinksRoundTrip(ls: seq<DashboardLink>)
    ensures DecodeLinks(EncodeLinks(ls)) == Ok(Map(CanonLink, ls))
  {
    forall i | 0 <= i < |ls|
      ensures DecodeLink(EncodeLink(ls[i])) == Ok(CanonLink(ls[i]))
    {
      LinkRoundTrip(ls[i]);
    }
    ForeachOfMap(EncodeLink, DecodeLink, CanonLink, ls);
  }

  /** Re-encoding a link that was read back writes the same JSON. */
  lemma LinkStable(l: DashboardLink)
    ensures EncodeLink(CanonLink(l)) == EncodeLink(l)
  {
    assert LinkValues(CanonLink(l)) == LinkValues(l);
  }

  /**
   * The encoding writes the `uri` under both `dashUri` and `url`, and a
   * title that is the stored one or, when that is unset, the dashboard's name.
   */
  lemma LinkEncodingKeys(l: DashboardLink)
    ensures "dashUri" in EncodeLink(l).fields && "url" in EncodeLink(l).fields && "title" in EncodeLink(l).fields
    ensures EncodeLink(l).fields["dashUri"] == l.uri && EncodeLink(l).fields["url"] == l.uri
    ensures EncodeLink(l).fields["title"] == if l.title.JNull? then l.dashboard else l.title
  {
    LinkKeysSeparate();
    DistinctConcat(LINK_WIRE_NAMES, LINK_REST);
    ObjectOfAt(LINK_WIRE_NAMES + LINK_REST, LinkValues(l), 0);
    ObjectOfAt(LINK_WIRE_NAMES + LINK_REST, LinkValues(l), 3);
    ObjectOfAt(LINK_WIRE_NAMES + LINK_REST, LinkValues(l), 5);
  }

  /** A list of links reads back to a list whose encoding is the one written. */
  lemma LinksStable(ls: seq<DashboardLink>)
    ensures EncodeLinks(Map(CanonLink, ls)) == EncodeLinks(ls)
  {
    forall i | 0 <= i < |ls|
      ensures Map(EncodeLink, Map(CanonLink, ls))[i] == Map(EncodeLink, ls)[i]
    {
      LinkStable(ls[i]);
    }
  }
}

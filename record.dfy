/** Pure part of the Infoblox Universal authenticator: choosing the view and the
    zone a challenge record goes into, and building the TXT record request.
    The DDI service's answers (the views listed for a name, the zones listed
    for an fqdn) are inputs. */
module InfobloxRecord {

  datatype Option<T> = None | Some(value: T)

  datatype Result<T, E> = Ok(value: T) | Err(error: E)

  /** A DNS view as returned by the view listing. */
  datatype View = View(id: string, name: string)

  /** An authoritative zone as returned by the zone listing; `view` is the id
      of the view the zone belongs to. */
  datatype Zone = Zone(id: string, fqdn: string, view: string)

  /** The two ways resolution fails (both raised as ValueError by the plugin). */
  datatype Error = ViewNotFound(viewName: string) | ZoneNotFound(domain: string)

  /** The body of the record creation request. */
  datatype TxtRecord = TxtRecord(
    name: string,
    recordType: string,
    rdataText: string,
    nameInZone: string,
    zone: string,
    ttl: nat,
    comment: string)

  const DefaultView: string := "default"
  const RecordType: string := "TXT"
  /** The authenticator's class-level TTL, in seconds. */
  const Ttl: nat := 300

  /** A credentials lookup: None when the key is absent. */
  function Conf(conf: map<string, string>, key: string): Option<string>
  {
    if key in conf then Some(conf[key]) else None
  }

  /** The configured view name, or "default" when it is absent or empty. */
  function ViewName(conf: map<string, string>): (r: string)
    ensures r != ""
    ensures "view" in conf && conf["view"] != "" ==> r == conf["view"]
    ensures !("view" in conf && conf["view"] != "") ==> r == DefaultView
  {
    match Conf(conf, "view")
    case Some(v) => if v != "" then v else DefaultView
    case None => DefaultView
  }

  /** The text before the first '.', or the whole name if it has none. */
  function NameInZone(name: string): (r: string)
    ensures r <= name
    ensures '.' !in r
    ensures |r| < |name| ==> name[|r|] == '.'
  {
    if name == [] || name[0] == '.' then [] else [name[0]] + NameInZone(name[1..])
  }

  /** The zone-relative name of `head.rest` is `head` when `head` has no dot. */
  lemma {:induction false} LeftmostLabel(head: string, rest: string)
    requires '.' !in head
    ensures NameInZone(head + "." + rest) == head
  {
    if head != [] {
      assert (head + "." + rest)[1..] == head[1..] + "." + rest;
      LeftmostLabel(head[1..], rest);
    }
  }

  /** Zone i is the first, in listing order, that belongs to view `viewId`. */
  ghost predicate IsFirstInView(zones: seq<Zone>, viewId: string, i: int)
  {
    0 <= i < |zones| && zones[i].view == viewId &&
    forall j :: 0 <= j < i ==> zones[j].view != viewId
  }

  /** The position of the first zone belonging to view `viewId`, if any. */
  function FirstInView(zones: seq<Zone>, viewId: string): (r: Option<nat>)
    ensures r.Some? ==> IsFirstInView(zones, viewId, r.value)
    ensures r.None? <==> forall j :: 0 <= j < |zones| ==> zones[j].view != viewId
  {
    if zones == [] then None
    else if zones[0].view == viewId then Some(0)
    else match FirstInView(zones[1..], viewId)
      case None => None
      case Some(k) => Some(k + 1)
  }

  /** The request the plugin submits for a challenge once the zone is known. */
  function MakeRecord(domain: string, validationName: string, validation: string,
                      zoneId: string, stamp: string): TxtRecord
  {
    TxtRecord(validationName, RecordType, validation, NameInZone(validationName),
              zoneId, Ttl, stamp + ": certbot-auto for " + domain)
  }

  /** Resolves the view and the zone and builds the TXT record request.
      `views` is what the view listing returns for ViewName(conf), `zones`
      what the zone listing returns for `domain`, `stamp` the local time. */
  function BuildRecord(conf: map<string, string>, domain: string, validationName: string,
                       validation: string, stamp: string,
                       views: seq<View>, zones: seq<Zone>): (r: Result<TxtRecord, Error>)
    // no view: fails with the view name, whatever the zones are
    ensures views == [] ==> r == Err(ViewNotFound(ViewName(conf)))
    ensures views != [] && r.Err? ==> r.error == ZoneNotFound(domain)
    // success exactly when the first zone of the first view has a non-empty id
    ensures r.Ok? <==>
      views != [] && exists i :: IsFirstInView(zones, views[0].id, i) && zones[i].id != ""
    ensures r.Ok? ==> forall i :: IsFirstInView(zones, views[0].id, i) ==> r.value.zone == zones[i].id
    ensures r.Ok? ==>
      r.value.name == validationName && r.value.recordType == "TXT" &&
      r.value.rdataText == validation && r.value.ttl == 300 &&
      r.value.nameInZone == NameInZone(validationName) &&
      r.value.comment == stamp + ": certbot-auto for " + domain
  {
    if views == [] then Err(ViewNotFound(ViewName(conf)))
    else
      var viewId := views[0].id;
      match FirstInView(zones, viewId)
      case None => Err(ZoneNotFound(domain))
      case Some(i) =>
        var zoneId := zones[i].id;
        if zoneId == "" then
          Err(ZoneNotFound(domain))
        else
          Ok(MakeRecord(domain, validationName, validation, zoneId, stamp))
  }

  /** When exactly one listed zone belongs to the view, that zone is chosen
      wherever it stands among the others. */
  lemma OnlyZoneOfViewChosen(conf: map<string, string>, domain: string, validationName: string,
                             validation: string, stamp: string,
                             views: seq<View>, zones: seq<Zone>, i: int)
    requires views != [] && 0 <= i < |zones| && zones[i].view == views[0].id && zones[i].id != ""
    requires forall j :: 0 <= j < |zones| && j != i ==> zones[j].view != views[0].id
    ensures BuildRecord(conf, domain, validationName, validation, stamp, views, zones)
            == Ok(MakeRecord(domain, validationName, validation, zones[i].id, stamp))
  {
    assert IsFirstInView(zones, views[0].id, i);
  }

  /** The challenge of the plugin's tests: view "test" has id view-id, and
      zone-id is the example.com zone bound to that view, as the tests
      intend (their zone fixture itself names no view). */
  lemma ExampleScenarioRecord(stamp: string)
    ensures var r := BuildRecord(map["api_key" := "1234567", "view" := "test"], "example.com",
                                 "_acme-challenge.example.com", "dummy-validation", stamp,
                                 [View("view-id", "test")], [Zone("zone-id", "example.com", "view-id")]);
      r.Ok? && r.value.name == "_acme-challenge.example.com" && r.value.recordType == "TXT" &&
      r.value.rdataText == "dummy-validation" && r.value.zone == "zone-id" && r.value.ttl == 300 &&
      r.value.nameInZone == "_acme-challenge"
  {
    var zones := [Zone("zone-id", "example.com", "view-id")];
    assert FirstInView(zones, "view-id") == Some(0);
    assert "_acme-challenge.example.com" == "_acme-challenge" + "." + "example.com";
    LeftmostLabel("_acme-challenge", "example.com");
  }
}

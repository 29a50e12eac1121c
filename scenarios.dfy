/** Runs of the authenticator on concrete situations modelled on its test
    suite, stated as postconditions of methods that drive a fresh
    authenticator. */
module InfobloxScenarios {
  import opened InfobloxRecord
  import opened HandleList
  import opened InfobloxAuthenticator

  /** Asking a fresh authenticator for its client twice builds one client
      and hands out the same one both times. */
  method LazyClientScenario(conf: map<string, string>) returns (first: Client, second: Client, ghost built: nat)
    ensures first == second && built == 1
    ensures first == Client(StageCspUrl, Conf(conf, "api_key"), "certbot")
  {
    var a := new Authenticator(conf);
    first := a.GetInfobloxClient();
    second := a.GetInfobloxClient();
    built := a.clientsBuilt;
  }

  /** Perform then cleanup for _acme-challenge.example.com, with zone-id the
      example.com zone of view view-id: the record goes into zone-id, its id txt-id is held, and cleanup deletes exactly it. */
  method PerformCleanupScenario(stamp: string)
    returns (request: Result<TxtRecord, Error>, held: seq<string>, deleted: seq<string>, remaining: seq<string>)
    ensures request.Ok? && request.value.name == "_acme-challenge.example.com"
    ensures request.value.recordType == "TXT" && request.value.rdataText == "dummy-validation"
    ensures request.value.zone == "zone-id" && request.value.ttl == 300
    ensures held == ["txt-id"]
    ensures deleted == ["txt-id"] && remaining == []
  {
    var conf := map["api_key" := "1234567", "view" := "test"];
    var a := new Authenticator(conf);
    ExampleScenarioRecord(stamp);
    request := a.Perform("example.com", "_acme-challenge.example.com", "dummy-validation", stamp,
                         [View("view-id", "test")], [Zone("zone-id", "example.com", "view-id")], "txt-id");
    held := a.infotxts;
    deleted := a.Cleanup();
    remaining := a.infotxts;
  }

  /** With no matching view nothing is created and no handle is held. */
  method MissingViewScenario(stamp: string) returns (request: Result<TxtRecord, Error>, held: seq<string>)
    ensures request == Err(ViewNotFound("test")) && held == []
  {
    var a := new Authenticator(map["api_key" := "1234567", "view" := "test"]);
    request := a.Perform("example.com", "_acme-challenge.example.com", "dummy-validation", stamp,
                         [], [Zone("zone-id", "example.com", "view-id")], "txt-id");
    held := a.infotxts;
  }

  /** Two challenges, then cleanup: iterating the live list deletes only the
      first record and keeps the second; iterating a snapshot deletes both. */
  method TwoHandlesCleanupScenario()
    returns (deletedLive: seq<string>, remainingLive: seq<string>,
             deletedSnapshot: seq<string>, remainingSnapshot: seq<string>)
    ensures deletedLive == ["txt-1"] && remainingLive == ["txt-2"]
    ensures deletedSnapshot == ["txt-1", "txt-2"] && remainingSnapshot == []
  {
    var conf := map["api_key" := "1234567", "view" := "test"];
    var a := new Authenticator(conf);
    a.infotxts := ["txt-1", "txt-2"];
    deletedLive := a.Cleanup();
    remainingLive := a.infotxts;
    assert Distinct(["txt-1", "txt-2"]);
    var b := new Authenticator(conf);
    b.infotxts := ["txt-1", "txt-2"];
    deletedSnapshot := b.CleanupAll();
    remainingSnapshot := b.infotxts;
  }

  /** Two challenges cleaned up by two calls: each call of the source's loop
      deletes one record, so the second call deletes the one the first
      left held. */
  method RepeatedCleanupScenario() returns (first: seq<string>, second: seq<string>, remaining: seq<string>)
    ensures first == ["txt-1"] && second == ["txt-2"] && remaining == []
  {
    var a := new Authenticator(map["api_key" := "1234567", "view" := "test"]);
    a.infotxts := ["txt-1", "txt-2"];
    assert Distinct(["txt-1", "txt-2"]);
    first := a.Cleanup();
    second := a.Cleanup();
    remaining := a.infotxts;
  }
}

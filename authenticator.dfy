/** The Infoblox Universal DNS-01 authenticator: a lazily built API client
    and the list of created TXT record ids that cleanup deletes.
    Calls into the vendor SDK are replaced by their answers, given as
    parameters (views, zones, the id of the created record), and by their
    effects, returned as results (the request body submitted for creation,
    the ids passed to delete, in call order). */
module InfobloxAuthenticator {
  import opened InfobloxRecord
  import opened HandleList
  import opened CleanupLoop

  /** The SDK client configuration: endpoint, API key and client name. */
  datatype Client = Client(cspUrl: string, apiKey: Option<string>, clientName: string)

  const StageCspUrl: string := "https://stage.csp.infoblox.com"
  const ClientName: string := "certbot"

  /** The client the plugin configures from its endpoint and credentials. */
  function NewClient(cspUrl: string, conf: map<string, string>): Client
  {
    Client(cspUrl, Conf(conf, "api_key"), ClientName)
  }

  class Authenticator {
    /** The loaded credentials (key to value). */
    const conf: map<string, string>
    const cspUrl: string
    /** The SDK client, None until first use. */
    var infoclient: Option<Client>
    /** How many clients have been constructed so far. */
    ghost var clientsBuilt: nat
    /** Ids of the TXT records created and not yet cleaned up, in creation order. */
    var infotxts: seq<string>

    /** At most one client is ever built, and it is bound to this
        authenticator's endpoint and credentials. */
    ghost predicate Valid()
      reads this
    {
      cspUrl == StageCspUrl &&
      (infoclient.None? ==> clientsBuilt == 0) &&
      (infoclient.Some? ==> clientsBuilt == 1 && infoclient.value == NewClient(cspUrl, conf))
    }

    constructor (conf: map<string, string>)
      ensures Valid()
      ensures this.conf == conf && infoclient == None && infotxts == []
    {
      this.conf := conf;
      cspUrl := StageCspUrl;
      infoclient := None;
      clientsBuilt := 0;
      infotxts := [];
    }

    /** Builds the client on first use and returns the same one afterwards. */
    method GetInfobloxClient() returns (c: Client)
      requires Valid()
      modifies this`infoclient, this`clientsBuilt
      ensures Valid()
      ensures infoclient == Some(c) && c == NewClient(cspUrl, conf) && clientsBuilt == 1
      ensures old(infoclient).Some? ==> c == old(infoclient).value && clientsBuilt == old(clientsBuilt)
      ensures old(infoclient).None? ==> clientsBuilt == old(clientsBuilt) + 1
    {
      if infoclient.None? {
        infoclient := Some(NewClient(cspUrl, conf));
        clientsBuilt := clientsBuilt + 1;
      }
      c := infoclient.value;
    }

    /** Resolves the zone for a challenge and builds the record request;
        `views` and `zones` are the SDK's answers to the two listings. */
    method GetInfobloxRecord(domain: string, validationName: string, validation: string,
                             stamp: string, views: seq<View>, zones: seq<Zone>)
      returns (r: Result<TxtRecord, Error>)
      requires Valid()
      modifies this`infoclient, this`clientsBuilt
      ensures Valid() && infoclient.Some?
      ensures old(infoclient).Some? ==> infoclient == old(infoclient) && clientsBuilt == old(clientsBuilt)
      ensures r == BuildRecord(conf, domain, validationName, validation, stamp, views, zones)
    {
      var _ := GetInfobloxClient();
      r := BuildRecord(conf, domain, validationName, validation, stamp, views, zones);
    }

    /** Creates the challenge record and remembers the id the service gave it.
        Returns the body submitted for creation, or the resolution error, in
        which case nothing was submitted. */
    method Perform(domain: string, validationName: string, validation: string,
                   stamp: string, views: seq<View>, zones: seq<Zone>, createdId: string)
      returns (request: Result<TxtRecord, Error>)
      requires Valid()
      modifies this
      ensures Valid() && infoclient.Some?
      ensures old(infoclient).Some? ==> infoclient == old(infoclient) && clientsBuilt == old(clientsBuilt)
      ensures request == BuildRecord(conf, domain, validationName, validation, stamp, views, zones)
      ensures request.Ok? ==> infotxts == old(infotxts) + [createdId]
      ensures request.Err? ==> infotxts == old(infotxts)
    {
      var _ := GetInfobloxClient();
      request := GetInfobloxRecord(domain, validationName, validation, stamp, views, zones);
      if request.Ok? {
        infotxts := infotxts + [createdId];
      }
    }

    /** Deletes the remembered records, iterating over the list while removing
        from it as the plugin does: the iteration index runs over the live,
        shrinking list. Returns the ids passed to delete, in call order. */
    method Cleanup() returns (deleted: seq<string>)
      requires Valid()
      modifies this
      ensures Valid() && infoclient.Some?
      ensures old(infoclient).Some? ==> infoclient == old(infoclient) && clientsBuilt == old(clientsBuilt)
      ensures old(infotxts) == [] ==> deleted == [] && infotxts == []
      ensures |old(infotxts)| == 1 ==> deleted == old(infotxts) && infotxts == []
      // exactly the handles at even positions are deleted, in order
      ensures deleted == Evens(old(infotxts))
      // every handle is either deleted or still held, never both or neither
      ensures multiset(deleted) + multiset(infotxts) == multiset(old(infotxts))
      // the handles at odd positions survive, in order when all ids differ
      ensures multiset(infotxts) == multiset(Odds(old(infotxts)))
      ensures Distinct(old(infotxts)) ==> infotxts == Odds(old(infotxts))
      // half of the handles, rounded down, are left for a later call
      ensures |infotxts| == |old(infotxts)| / 2
    {
      var _ := GetInfobloxClient();
      deleted := [];
      if infotxts == [] {
        return;
      }
      ghost var orig := infotxts;
      ghost var m := 0;                   // how much of orig has been visited
      ghost var kept: seq<string> := [];  // the odd-position handles stepped over so far
      ghost var evens, odds := Evens(orig), Odds(orig);
      var i := 0;
      VisitStart(orig);
      while i < |infotxts|
        modifies this`infotxts
        invariant Visited(orig, evens, odds, m, kept, deleted, infotxts, i)
        decreases |infotxts| - i
      {
        var txt := infotxts[i];
        m, kept := VisitStep(orig, evens, odds, m, kept, deleted, infotxts, i);
        // delete(id=txt)
        deleted := deleted + [txt];
        infotxts := Remove(infotxts, txt);
        i := i + 1;
      }
      VisitDone(orig, m, kept, deleted, infotxts, i);
    }

    /** Cleanup as evidently intended: iterate over a snapshot of the list,
        so that every remembered record is deleted. */
    method CleanupAll() returns (deleted: seq<string>)
      requires Valid()
      modifies this
      ensures Valid() && infoclient.Some?
      ensures old(infoclient).Some? ==> infoclient == old(infoclient) && clientsBuilt == old(clientsBuilt)
      ensures deleted == old(infotxts) && infotxts == []
    {
      var _ := GetInfobloxClient();
      deleted := [];
      if infotxts == [] {
        return;
      }
      var snapshot := infotxts;
      var i := 0;
      assert snapshot[0..] == snapshot;
      while i < |snapshot|
        modifies this`infotxts
        invariant 0 <= i <= |snapshot|
        invariant infotxts == snapshot[i..] && deleted == snapshot[..i]
      {
        var txt := snapshot[i];
        RemoveAt(infotxts, 0, txt);
        assert infotxts[0] == txt && infotxts[1..] == snapshot[i + 1..];
        assert snapshot[..i + 1] == snapshot[..i] + [txt];
        deleted := deleted + [txt];
        infotxts := Remove(infotxts, txt);
        i := i + 1;
      }
    }
  }
}

/**
 * Resolution of a user's CERN person id (`_find_person_id` in
 * burotel/indico_burotel/tasks.py): the cached provider data of the user's
 * CERN identity, then a refresh of that identity through the provider (which
 * overwrites the identity's data), then an exact search by e-mail address.
 */
module Identity {
  import opened Wrappers

  /** A JSON scalar, as stored under a key of an identity's provider data. */
  datatype Value = Null | Bool(b: bool) | Int(i: int) | Str(s: string)

  /** Provider data of an identity; `None` is Python's None, which cannot be subscripted. */
  type Json = Option<map<string, Value>>

  const PersonIdKey: string := "cern_person_id"

  /** `data['cern_person_id']`, or None where Python raises KeyError or TypeError. */
  function Lookup(j: Json): Option<Value> {
    if j.Some? && PersonIdKey in j.value then Some(j.value[PersonIdKey]) else None
  }

  /** Python truthiness of a person id (`if not person_id`). */
  predicate Truthy(pid: Option<Value>) {
    match pid
    case None => false
    case Some(Null) => false
    case Some(Bool(b)) => b
    case Some(Int(i)) => i != 0
    case Some(Str(s)) => s != ""
  }

  /** What the provider's refresh returns: new raw data and new provider data. */
  datatype RefreshInfo = RefreshInfo(data: Json, multipassData: Json)

  /**
   * The identity provider, as two oracles: refreshing an identity from its
   * identifier and current provider data, and an exact search by a set of
   * e-mail addresses, whose results are given by their provider data.
   */
  datatype Provider = Provider(refresh: (string, Json) -> RefreshInfo, search: set<string> -> seq<Json>)

  /** A call made to the provider, with the arguments it was given. */
  datatype ProviderCall = Refresh(identifier: string, multipassData: Json) | Search(emails: set<string>)

  /** The observable state of an identity record. */
  datatype IdentityState = IdentityState(identifier: string, data: Json, multipassData: Json)

  datatype Resolution = Resolution(personId: Option<Value>, calls: seq<ProviderCall>, identity: Option<IdentityState>)

  /** The person id of the first search result that has one at all (its value may still be falsy). */
  function FirstHit(results: seq<Json>): (r: Option<Value>)
    ensures r.None? <==> forall i :: 0 <= i < |results| ==> Lookup(results[i]).None?
    ensures r.Some? ==> exists i :: 0 <= i < |results| && Lookup(results[i]) == r &&
                                   forall j :: 0 <= j < i ==> Lookup(results[j]).None?
  {
    if results == [] then None
    else if Lookup(results[0]).Some? then Lookup(results[0])
    else
      var r := FirstHit(results[1..]);
      assert forall i :: 1 <= i < |results| ==> results[i] == results[1..][i - 1];
      r
  }

  /**
   * The fallback chain on values: `ident` is the user's identity for the
   * configured provider (None when the user has none), `emails` all of the
   * user's addresses.
   */
  function Resolve(ident: Option<IdentityState>, emails: set<string>, provider: Provider): (r: Resolution)
    // a cached person id is returned as it is and the provider is not asked
    ensures ident.Some? && Lookup(ident.value.multipassData).Some? ==>
              r.personId == Lookup(ident.value.multipassData) && r.calls == [] && r.identity == ident
    // the refresh is made exactly when an identity exists without a cached id, with its current data
    ensures (|r.calls| > 0 && r.calls[0].Refresh?) <==> ident.Some? && Lookup(ident.value.multipassData).None?
    ensures |r.calls| > 0 && r.calls[0].Refresh? ==>
              var info := provider.refresh(ident.value.identifier, ident.value.multipassData);
              r.calls[0] == Refresh(ident.value.identifier, ident.value.multipassData) &&
              r.identity == Some(IdentityState(ident.value.identifier, info.data, info.multipassData)) &&
              (Lookup(info.multipassData).Some? ==> r.personId == Lookup(info.multipassData) && |r.calls| == 1)
    // at most one refresh and one search are made
    ensures |r.calls| <= 2
    // without an identity there is no refresh and nothing is written
    ensures ident.None? ==> r.identity == None && r.calls == [Search(emails)]
    // the search is the last resort, is made with all addresses, and its first hit wins
    ensures Search(emails) in r.calls <==>
              ident.None? || (Lookup(ident.value.multipassData).None? &&
                              Lookup(provider.refresh(ident.value.identifier, ident.value.multipassData).multipassData).None?)
    ensures Search(emails) in r.calls ==>
              r.calls[|r.calls| - 1] == Search(emails) && r.personId == FirstHit(provider.search(emails))
    // no id only when the cache, the refresh and every search result lack one
    ensures r.personId.None? <==>
              (ident.None? || (Lookup(ident.value.multipassData).None? &&
                               Lookup(provider.refresh(ident.value.identifier, ident.value.multipassData).multipassData).None?)) &&
              forall i :: 0 <= i < |provider.search(emails)| ==> Lookup(provider.search(emails)[i]).None?
  {
    match ident
    case None =>
      Resolution(FirstHit(provider.search(emails)), [Search(emails)], None)
    case Some(id) =>
      if Lookup(id.multipassData).Some? then Resolution(Lookup(id.multipassData), [], ident)
      else
        var info := provider.refresh(id.identifier, id.multipassData);
        var refreshed := Some(IdentityState(id.identifier, info.data, info.multipassData));
        var call := Refresh(id.identifier, id.multipassData);
        if Lookup(info.multipassData).Some? then Resolution(Lookup(info.multipassData), [call], refreshed)
        else Resolution(FirstHit(provider.search(emails)), [call, Search(emails)], refreshed)
  }

  /**
   * Writing the refreshed data back pays off: once a refresh has produced a
   * person id, resolving again (as the second request of a booking
   * modification does) returns the same id from the cache without calls.
   */
  lemma RefreshedIdIsCached(ident: Option<IdentityState>, emails: set<string>, provider: Provider)
    requires ident.Some?
    requires Resolve(ident, emails, provider).calls == [Refresh(ident.value.identifier, ident.value.multipassData)]
    ensures var first := Resolve(ident, emails, provider);
            var second := Resolve(first.identity, emails, provider);
            second.calls == [] && second.personId == first.personId && second.identity == first.identity
  {
  }

  /** The identity state left after a run of resolutions that started from `s0`. */
  function IdentityAfter(s0: Option<IdentityState>, rs: seq<Resolution>): Option<IdentityState> {
    if rs == [] then s0 else rs[|rs| - 1].identity
  }

  /**
   * `n` resolutions made one after the other for the same user, each starting
   * from the identity state the previous one left (as the requests of one
   * access update do).
   */
  function Resolutions(s0: Option<IdentityState>, emails: set<string>, provider: Provider, n: nat): (rs: seq<Resolution>)
    ensures |rs| == n
  {
    if n == 0 then []
    else
      var prev := Resolutions(s0, emails, provider, n - 1);
      prev + [Resolve(IdentityAfter(s0, prev), emails, provider)]
  }

  /** A run of resolutions is extended by the one made from the record it leaves. */
  lemma ResolutionsNext(s0: Option<IdentityState>, emails: set<string>, provider: Provider, n: nat,
                        now: Option<IdentityState>)
    requires IdentityAfter(s0, Resolutions(s0, emails, provider, n)) == now
    ensures Resolutions(s0, emails, provider, n + 1) == Resolutions(s0, emails, provider, n) + [Resolve(now, emails, provider)]
    ensures IdentityAfter(s0, Resolutions(s0, emails, provider, n + 1)) == Resolve(now, emails, provider).identity
  {
  }

  /** A user's external identity record; `data` and `multipassData` are overwritten by a refresh. */
  class IdentityRecord {
    const identifier: string
    var data: Json
    var multipassData: Json

    constructor (identifier: string, data: Json, multipassData: Json)
      ensures this.identifier == identifier && this.data == data && this.multipassData == multipassData
    {
      this.identifier := identifier;
      this.data := data;
      this.multipassData := multipassData;
    }
  }

  /** A user: all e-mail addresses and the identity records by provider name. */
  class User {
    const emails: set<string>
    const identities: map<string, IdentityRecord>

    constructor (emails: set<string>, identities: map<string, IdentityRecord>)
      ensures this.emails == emails && this.identities == identities
    {
      this.emails := emails;
      this.identities := identities;
    }
  }

  /** The objects that resolving a person id may change: the user's identity for `providerName`. */
  function IdentityFrame(user: User, providerName: string): set<object> {
    if providerName in user.identities then {user.identities[providerName]} else {}
  }

  function Snapshot(user: User, providerName: string): Option<IdentityState>
    reads IdentityFrame(user, providerName)
  {
    if providerName in user.identities then
      var rec := user.identities[providerName];
      Some(IdentityState(rec.identifier, rec.data, rec.multipassData))
    else None
  }

  /**
   * `_find_person_id`: returns the person id (or None) and the provider calls
   * made, and leaves the identity record as the refresh (if any) left it.
   */
  method FindPersonId(user: User, providerName: string, provider: Provider)
    returns (pid: Option<Value>, calls: seq<ProviderCall>)
    modifies IdentityFrame(user, providerName)
    ensures var r := Resolve(old(Snapshot(user, providerName)), user.emails, provider);
            pid == r.personId && calls == r.calls && Snapshot(user, providerName) == r.identity
  {
    calls := [];
    if providerName in user.identities {
      var ident := user.identities[providerName];
      pid := Lookup(ident.multipassData);
      if pid.Some? {
        return;
      }
      calls := [Refresh(ident.identifier, ident.multipassData)];
      var info := provider.refresh(ident.identifier, ident.multipassData);
      ident.data := info.data;
      ident.multipassData := info.multipassData;
      pid := Lookup(info.multipassData);
      if pid.Some? {
        return;
      }
    }
    calls := calls + [Search(user.emails)];
    var results := provider.search(user.emails);
    var k := 0;
    while k < |results|
      invariant 0 <= k <= |results|
      invariant FirstHit(results) == FirstHit(results[k..])
    {
      assert results[k..][1..] == results[k + 1..];
      pid := Lookup(results[k]);
      if pid.Some? {
        return;
      }
      k := k + 1;
    }
    pid := None;
  }
}

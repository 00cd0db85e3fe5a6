/** The headers put on every request to the portal. */
module Headers {
  import opened Strings

  type HeaderValues = map<string, seq<string>>

  // ---------------------------------------------------------------- the overlay

  /** One configured entry overrides a header if it has a colon; the name is what comes before the first. */
  function OverlayOne(values: HeaderValues, entry: string): HeaderValues {
    match Cut(entry, ':')
    case None => values
    case Some((name, value)) => values[name := [value]]
  }

  /** The entries in list order. */
  function Overlay(values: HeaderValues, entries: seq<string>): HeaderValues {
    if entries == [] then values
    else OverlayOne(Overlay(values, entries[..|entries| - 1]), entries[|entries| - 1])
  }

  /** Entry `i` sets the header and no later entry does. */
  predicate SetsLast(entries: seq<string>, i: nat, name: string) {
    i < |entries| && Cut(entries[i], ':').Some? && Cut(entries[i], ':').value.0 == name &&
    forall j :: i < j < |entries| && Cut(entries[j], ':').Some? ==> Cut(entries[j], ':').value.0 != name
  }

  /** What the overlay means for one header: the last entry that sets it wins, and a header no entry sets
      stays as it was. */
  lemma {:induction false} LastEntryWins(values: HeaderValues, entries: seq<string>, name: string)
    ensures forall i: nat :: SetsLast(entries, i, name) ==>
              name in Overlay(values, entries) &&
              Overlay(values, entries)[name] == [Cut(entries[i], ':').value.1]
    ensures (forall i: nat :: !SetsLast(entries, i, name)) ==>
              (name in Overlay(values, entries) <==> name in values) &&
              (name in values ==> Overlay(values, entries)[name] == values[name])
  {
    if entries == [] {
    } else {
      var before, n := entries[..|entries| - 1], |entries| - 1;
      LastEntryWins(values, before, name);
      var last := Cut(entries[n], ':');
      if last.Some? && last.value.0 == name {
        assert SetsLast(entries, n, name);
      } else {
        forall i: nat ensures SetsLast(entries, i, name) <==> SetsLast(before, i, name) {
          EarlierSetter(entries, i, name);
        }
      }
    }
  }

  /** An entry whose name has no colon sets the header of that name to the rest of the entry; an entry without
      a colon sets nothing. */
  lemma EntrySets(values: HeaderValues, entries: seq<string>, name: string, value: string)
    requires ':' !in name
    ensures Overlay(values, entries + [name + ":" + value]) == Overlay(values, entries)[name := [value]]
    ensures Overlay(values, entries + [name]) == Overlay(values, entries)
  {
    CutFinds(name, ':', value);
    assert name + ":" + value == name + [':'] + value;
    assert (entries + [name + ":" + value])[..|entries|] == entries == (entries + [name])[..|entries|];
  }

  lemma EarlierSetter(entries: seq<string>, i: nat, name: string)
    requires entries != []
    requires var last := Cut(entries[|entries| - 1], ':'); last.None? || last.value.0 != name
    ensures SetsLast(entries, i, name) <==> SetsLast(entries[..|entries| - 1], i, name)
  {
    var before := entries[..|entries| - 1];
    assert forall j :: 0 <= j < |before| ==> before[j] == entries[j];
  }

  // ---------------------------------------------------------------- the round tripper

  /** A header map as the HTTP library holds it: each name points to a slice of values. */
  class Header {
    var slices: map<string, array<string>>

    constructor ()
      ensures slices == map[]
    {
      slices := map[];
    }

    function Values(): HeaderValues
      reads this, slices.Values
    {
      map name | name in slices :: slices[name][..]
    }

    method Set(name: string, slice: array<string>)
      modifies this
      ensures slices == old(slices)[name := slice]
      ensures slices.Values <= old(slices).Values + {slice}
      ensures Values() == old(Values())[name := slice[..]]
    {
      slices := slices[name := slice];
    }
  }

  class HttpRequest {
    var target: string
    var header: Header

    constructor (target: string, header: Header)
      ensures this.target == target && this.header == header
    {
      this.target, this.header := target, header;
    }
  }

  class HeaderRoundTripper {
    const headers: seq<string>

    constructor (headers: seq<string>)
      ensures this.headers == headers
    {
      this.headers := headers;
    }

    /** Builds the request that is handed on: a copy with its own header map and its own value slices. The
        given request is not among the things this may modify. */
    method RoundTrip(request: HttpRequest) returns (sent: HttpRequest)
      ensures fresh(sent) && fresh(sent.header) && fresh(sent.header.slices.Values)
      ensures sent.target == request.target
      ensures sent.header.Values() == Overlay(request.header.Values(), headers)
    {
      var header := CopyHeader(request.header);
      OverlayHeaders(header);
      sent := new HttpRequest(request.target, header);
    }

    /** The first loop: every name gets a slice of its own. */
    method CopyHeader(source: Header) returns (header: Header)
      ensures fresh(header) && fresh(header.slices.Values)
      ensures header.Values() == source.Values()
    {
      header := new Header();
      var rest := source.slices.Keys;
      while rest != {}
        invariant rest <= source.slices.Keys
        invariant header.slices.Keys == source.slices.Keys - rest
        invariant fresh(header.slices.Values)
        invariant forall name :: name in header.slices ==> header.slices[name][..] == source.slices[name][..]
        decreases |rest|
      {
        var name :| name in rest;
        rest := rest - {name};
        var copy := CopyOf(source.slices[name]);
        header.Set(name, copy);
      }
    }

    /** The second loop: each entry with a colon gets a new one-element slice; no slice is written to. */
    method OverlayHeaders(header: Header)
      modifies header
      ensures header.Values() == Overlay(old(header.Values()), headers)
      ensures fresh(header.slices.Values - old(header.slices.Values))
    {
      ghost var before := header.Values();
      for i := 0 to |headers|
        invariant fresh(header.slices.Values - old(header.slices.Values))
        invariant header.Values() == Overlay(before, headers[..i])
      {
        assert headers[..i + 1][..i] == headers[..i];
        var split := Cut(headers[i], ':');
        if split.Some? {
          var slice := new string[] [split.value.1];
          assert slice[..] == [split.value.1];
          header.Set(split.value.0, slice);
        }
      }
      assert headers[..|headers|] == headers;
    }

    method CopyOf(slice: array<string>) returns (copy: array<string>)
      ensures fresh(copy) && copy[..] == slice[..]
    {
      copy := new string[slice.Length](i requires 0 <= i < slice.Length reads slice => slice[i]);
    }
  }

  // ---------------------------------------------------------------- the admin token

  const TOKEN_NAME := "kong-admin-token"

  /** Asking for a client appends the token entry, every time, when a token is configured. */
  function Inject(headers: seq<string>, token: string): seq<string> {
    if token == "" then headers else headers + [TOKEN_NAME + ":" + token]
  }

  function InjectTimes(headers: seq<string>, token: string, times: nat): seq<string> {
    if times == 0 then headers else Inject(InjectTimes(headers, token, times - 1), token)
  }

  class Config {
    var headers: seq<string>
    const kongAdminToken: string

    constructor (headers: seq<string>, kongAdminToken: string)
      ensures this.headers == headers && this.kongAdminToken == kongAdminToken
    {
      this.headers, this.kongAdminToken := headers, kongAdminToken;
    }

    /** The part of getting a client that concerns headers. */
    method GetKongClient() returns (client: HeaderRoundTripper)
      modifies this
      ensures headers == Inject(old(headers), kongAdminToken)
      ensures headers ==
              old(headers) + if kongAdminToken == "" then [] else ["kong-admin-token:" + kongAdminToken]
      ensures fresh(client) && client.headers == headers
    {
      if kongAdminToken != "" {
        assert "kong-admin-token:" == TOKEN_NAME + ":";
        headers := headers + ["kong-admin-token:" + kongAdminToken];
      }
      client := new HeaderRoundTripper(headers);
    }
  }

  lemma OverlayToken(values: HeaderValues, headers: seq<string>, token: string)
    requires token != ""
    ensures Overlay(values, Inject(headers, token)) == Overlay(values, headers)["kong-admin-token" := [token]]
  {
    EntrySets(values, headers, "kong-admin-token", token);
  }

  lemma TokenAgain(values: HeaderValues, without: HeaderValues, headers: seq<string>, token: string)
    requires token != "" && Overlay(values, headers) == without["kong-admin-token" := [token]]
    ensures Overlay(values, Inject(headers, token)) == without["kong-admin-token" := [token]]
  {
    OverlayToken(values, headers, token);
  }

  /** However often a client was asked for, the headers sent are those of one time: exactly the token under
      its name, whatever the request or the configured list held there, and all else as without it. */
  lemma {:induction false} TokenDominates(values: HeaderValues, headers: seq<string>, token: string, times: nat)
    requires token != "" && times > 0
    ensures Overlay(values, InjectTimes(headers, token, times)) ==
            Overlay(values, headers)["kong-admin-token" := [token]]
  {
    if times == 1 {
      assert InjectTimes(headers, token, 0) == headers;
      OverlayToken(values, headers, token);
    } else {
      TokenDominates(values, headers, token, times - 1);
      TokenAgain(values, Overlay(values, headers), InjectTimes(headers, token, times - 1), token);
    }
  }

  lemma {:induction false} NoTokenNoChange(headers: seq<string>, times: nat)
    ensures InjectTimes(headers, "", times) == headers
  {
    if times == 0 {
    } else {
      NoTokenNoChange(headers, times - 1);
    }
  }

  /** A client is asked for again and again, and the last one sends a request: the headers sent are those of
      asking once. */
  method AskAndSend(config: Config, times: nat, request: HttpRequest) returns (sent: HttpRequest)
    requires times > 0
    modifies config
    ensures fresh(sent) && fresh(sent.header) && fresh(sent.header.slices.Values)
    ensures sent.target == request.target
    ensures sent.header.Values() ==
            Overlay(request.header.Values(), Inject(old(config.headers), config.kongAdminToken))
    ensures var without := Overlay(request.header.Values(), old(config.headers));
            sent.header.Values() ==
            if config.kongAdminToken == "" then without
            else without["kong-admin-token" := [config.kongAdminToken]]
  {
    ghost var configured, token := config.headers, config.kongAdminToken;
    var client := config.GetKongClient();
    for i := 1 to times
      invariant client.headers == config.headers == InjectTimes(configured, token, i)
    {
      client := config.GetKongClient();
    }
    sent := client.RoundTrip(request);
    if token == "" {
      NoTokenNoChange(configured, times);
    } else {
      TokenDominates(request.header.Values(), configured, token, times);
      OverlayToken(request.header.Values(), configured, token);
    }
  }
}

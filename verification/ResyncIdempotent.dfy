/** Resyncing twice writes nothing the second time, and what it writes is the server's own settings. */
module ResyncIdempotent {
  import opened Text
  import C = Config
  import opened Params
  import opened ClientConf
  import opened Subnet
  import opened Resync
  import K = Clients
  import R = ConfRoundTrip
  import N = ConfNormalForm
  import H = Hooks
  import S6 = Subnet6
  import E = ConfEntries

  // --- the rows

  predicate OneLine(s: string) {
    '\n' !in s
  }

  /** What the server's settings must be for the file to have the lines it should: one line each. */
  predicate ServerOk(s: Server) {
    && s.net.Valid() && OneLine(s.publicKey) && OneLine(s.endpoint) && OneLine(s.mtu) && OneLine(s.keepalive)
    && (forall p :: p in s.params ==> OneLine(s.params[p]))
    && Clean(s.dns) && Clean(s.allowed)
  }

  predicate PlainKey(c: char) {
    'A' <= c <= 'Z' || 'a' <= c <= 'z' || '0' <= c <= '9'
  }

  lemma KeyIsGood(key: string)
    requires key != "" && forall i :: 0 <= i < |key| ==> PlainKey(key[i])
    ensures GoodKey(key)
  {
    assert PlainKey(key[0]) && PlainKey(key[|key| - 1]);
  }

  predicate NamedAs(p: Param, key: string) {
    GoodKey(key) && key[0] != 'A' && (key[0] == 'P' ==> p == PersistentKeepalive)
  }

  lemma KeyNameIsGood(p: Param)
    ensures NamedAs(p, KeyName(p))
  {
    hide NamedAs, KeyName;
    match p {
      case Jc => ShortName(p);
      case Jmin => ShortName(p);
      case Jmax => ShortName(p);
      case S1 => ShortName(p);
      case S2 => ShortName(p);
      case S3 => ShortName(p);
      case S4 => ShortName(p);
      case H1 => MiddleName(p);
      case H2 => MiddleName(p);
      case H3 => MiddleName(p);
      case H4 => MiddleName(p);
      case I1 => MiddleName(p);
      case I2 => MiddleName(p);
      case I3 => MiddleName(p);
      case I4 => MiddleName(p);
      case I5 => MiddleName(p);
      case HeaderProtectionKey => ProtectionName(p);
      case ContentPaddingAddition => ProtectionName(p);
      case RandomTrailers => ProtectionName(p);
      case DisableCookies => ProtectionName(p);
      case RekeyAfterTime => TimerName(p);
      case RekeyTimeout => TimerName(p);
      case RejectAfterTime => TimerName(p);
      case KeepaliveTimeout => TimerName(p);
      case MaxHandshakeAttempts => TimerName(p);
      case ListenPort => NetworkName(p);
      case MTU => NetworkName(p);
      case EndpointPort => NetworkName(p);
      case PersistentKeepalive => NetworkName(p);
    }
  }

  lemma ShortName(p: Param)
    requires p == Jc || p == Jmin || p == Jmax || p == S1 || p == S2 || p == S3 || p == S4
    ensures NamedAs(p, KeyName(p))
  {
    hide GoodKey;
    KeyIsGood(KeyName(p));
  }

  lemma MiddleName(p: Param)
    requires p == H1 || p == H2 || p == H3 || p == H4 || p == I1 || p == I2 || p == I3 || p == I4 || p == I5
    ensures NamedAs(p, KeyName(p))
  {
    hide GoodKey;
    KeyIsGood(KeyName(p));
  }

  lemma ProtectionName(p: Param)
    requires p == HeaderProtectionKey || p == ContentPaddingAddition || p == RandomTrailers || p == DisableCookies
    ensures NamedAs(p, KeyName(p))
  {
    hide GoodKey;
    KeyIsGood(KeyName(p));
  }

  lemma TimerName(p: Param)
    requires p == RekeyAfterTime || p == RekeyTimeout || p == RejectAfterTime || p == KeepaliveTimeout || p == MaxHandshakeAttempts
    ensures NamedAs(p, KeyName(p))
  {
    hide GoodKey;
    KeyIsGood(KeyName(p));
  }

  lemma NetworkName(p: Param)
    requires p == ListenPort || p == MTU || p == EndpointPort || p == PersistentKeepalive
    ensures NamedAs(p, KeyName(p))
  {
    hide GoodKey;
    KeyIsGood(KeyName(p));
  }

  lemma {:induction false} ParamRowsAreGood(values: Values, params: seq<Param>)
    requires forall p :: p in values ==> OneLine(values[p])
    ensures GoodRows(ParamRows(values, params))
  {
    hide KeyName, GoodKey, IsSet;
    if params != [] {
      ParamRowsAreGood(values, params[1..]);
      KeyNameIsGood(params[0]);
      if params[0] in values {
        StripChars(values[params[0]], '\n');
      }
    }
  }

  lemma FixedKeysAreGood()
    ensures GoodKey("PrivateKey") && GoodKey("Address") && GoodKey("DNS") && GoodKey("MTU") && GoodKey("PublicKey")
  {
    KeyIsGood("PrivateKey");
    KeyIsGood("Address");
    KeyIsGood("DNS");
    KeyIsGood("MTU");
    KeyIsGood("PublicKey");
  }

  lemma MoreKeysAreGood()
    ensures GoodKey("PresharedKey") && GoodKey("Endpoint") && GoodKey("AllowedIPs") && GoodKey("PersistentKeepalive")
  {
    KeyIsGood("PresharedKey");
    KeyIsGood("Endpoint");
    KeyIsGood("AllowedIPs");
    KeyIsGood("PersistentKeepalive");
  }

  lemma FrontIsGood(s: Server, private: string, address: string, dns: string)
    requires ServerOk(s) && OneLine(private) && OneLine(address) && OneLine(dns)
    ensures GoodRows(FrontRows(s, private, address, dns))
  {
    hide GoodKey, Clean;
    FixedKeysAreGood();
  }

  lemma BackIsGood(s: Server, preshared: string, allowed: string)
    requires ServerOk(s) && OneLine(preshared) && OneLine(allowed)
    ensures GoodRows(BackRows(s, preshared, allowed))
  {
    hide GoodKey, Clean;
    FixedKeysAreGood();
    MoreKeysAreGood();
  }

  lemma ClientIsGood(s: Server, private: string, address: string, dns: string, allowed: string, preshared: string)
    requires ServerOk(s) && OneLine(private) && OneLine(address) && OneLine(dns) && OneLine(allowed) && OneLine(preshared)
    ensures GoodRows(ClientRows(s, private, address, dns, allowed, preshared))
  {
    hide FrontRows, BackRows, ParamRows, GoodRow, Clean;
    FrontIsGood(s, private, address, dns);
    ParamRowsAreGood(s.params, AWG_PARAMS);
    BackIsGood(s, preshared, allowed);
  }

  // --- the four values a resync reads back

  lemma {:induction false} RowValueJoin(xs: seq<Row>, ys: seq<Row>, key: string)
    ensures RowValue(xs + ys, key) == if RowValue(xs, key).Some? then RowValue(xs, key) else RowValue(ys, key)
  {
    if xs == [] {
      assert xs + ys == ys;
    } else {
      assert (xs + ys)[0] == xs[0] && (xs + ys)[1..] == xs[1..] + ys;
      RowValueJoin(xs[1..], ys, key);
    }
  }

  lemma {:induction false} ParamsDoNotSet(values: Values, params: seq<Param>, key: string)
    requires key != "" && (key[0] == 'A' || (key[0] == 'P' && PersistentKeepalive !in params))
    ensures RowValue(ParamRows(values, params), key) == None
  {
    hide KeyName, IsSet, Get;
    if params != [] {
      var head := if IsSet(params[0], Get(values, params[0])) then [Sets(KeyName(params[0]), Get(values, params[0]))] else [];
      ParamsDoNotSet(values, params[1..], key);
      KeyNameIsGood(params[0]);
      RowValueJoin(head, ParamRows(values, params[1..]), key);
      assert head != [] ==> head[1..] == [];
    }
  }

  lemma RowValueSkip(r: Row, rest: seq<Row>, key: string)
    ensures RowValue([r] + rest, key) == if r.Sets? && r.key == key then Some(r.value) else RowValue(rest, key)
  {
    assert ([r] + rest)[1..] == rest;
  }

  lemma FrontValues(s: Server, private: string, address: string, dns: string)
    ensures var rows := FrontRows(s, private, address, dns);
            && RowValue(rows, "PrivateKey") == Some(private) && RowValue(rows, "DNS") == Some(dns)
            && RowValue(rows, "PresharedKey") == None && RowValue(rows, "AllowedIPs") == None
  {
    hide RowValue, FrontRows;
    FrontValue(s, private, address, dns, "PrivateKey");
    FrontValue(s, private, address, dns, "DNS");
    FrontValue(s, private, address, dns, "PresharedKey");
    FrontValue(s, private, address, dns, "AllowedIPs");
    FixedNamesDiffer();
  }

  lemma FixedNamesDiffer()
    ensures "DNS" != "PrivateKey" && "DNS" != "Address"
    ensures "PresharedKey" != "PrivateKey" && "PresharedKey" != "Address" && "PresharedKey" != "DNS" && "PresharedKey" != "MTU"
    ensures "AllowedIPs" != "PrivateKey" && "AllowedIPs" != "Address" && "AllowedIPs" != "DNS" && "AllowedIPs" != "MTU"
    ensures "PublicKey" != "PresharedKey" && "PublicKey" != "AllowedIPs" && "Endpoint" != "AllowedIPs"
  {
    assert "AllowedIPs"[0] != "PrivateKey"[0];
  }

  lemma FrontValue(s: Server, private: string, address: string, dns: string, key: string)
    ensures RowValue(FrontRows(s, private, address, dns), key)
      == if key == "PrivateKey" then Some(private) else if key == "Address" then Some(address)
         else if key == "DNS" then Some(dns) else if key == "MTU" then Some(s.mtu) else None
  {
    hide RowValue;
    var gap, mtu, dnsRow := Gap, Sets("MTU", s.mtu), Sets("DNS", dns);
    RowValueSkip(gap, [], key);
    NoRows(key);
    RowValueSkip(mtu, [gap], key);
    RowValueSkip(dnsRow, [mtu, gap], key);
    RowValueSkip(Sets("Address", address), [dnsRow, mtu, gap], key);
    RowValueSkip(Sets("PrivateKey", private), [Sets("Address", address), dnsRow, mtu, gap], key);
    RowValueSkip(Head("Interface"), [Sets("PrivateKey", private), Sets("Address", address), dnsRow, mtu, gap], key);
    assert [gap] + [] == [gap] && [mtu] + [gap] == [mtu, gap] && [dnsRow] + [mtu, gap] == [dnsRow, mtu, gap];
    assert [Sets("Address", address)] + [dnsRow, mtu, gap] == [Sets("Address", address), dnsRow, mtu, gap];
    assert [Sets("PrivateKey", private)] + [Sets("Address", address), dnsRow, mtu, gap]
        == [Sets("PrivateKey", private), Sets("Address", address), dnsRow, mtu, gap];
    assert [Head("Interface")] + [Sets("PrivateKey", private), Sets("Address", address), dnsRow, mtu, gap]
        == FrontRows(s, private, address, dns);
  }

  lemma NoRows(key: string)
    ensures RowValue([], key) == None
  {
  }

  lemma BackValue(s: Server, preshared: string, allowed: string, key: string)
    ensures RowValue(BackRows(s, preshared, allowed), key)
      == if key == "PublicKey" then Some(s.publicKey) else if key == "PresharedKey" then Some(preshared)
         else if key == "Endpoint" then Some(s.endpoint) else if key == "AllowedIPs" then Some(allowed)
         else if key == "PersistentKeepalive" then Some(s.keepalive) else None
  {
    hide RowValue;
    var k := Sets("PersistentKeepalive", s.keepalive);
    var a, e := Sets("AllowedIPs", allowed), Sets("Endpoint", s.endpoint);
    var q, p := Sets("PresharedKey", preshared), Sets("PublicKey", s.publicKey);
    RowValueSkip(k, [], key);
    NoRows(key);
    RowValueSkip(a, [k], key);
    RowValueSkip(e, [a, k], key);
    RowValueSkip(q, [e, a, k], key);
    RowValueSkip(p, [q, e, a, k], key);
    RowValueSkip(Head("Peer"), [p, q, e, a, k], key);
    RowValueSkip(Gap, [Head("Peer"), p, q, e, a, k], key);
    assert [k] + [] == [k] && [a] + [k] == [a, k] && [e] + [a, k] == [e, a, k] && [q] + [e, a, k] == [q, e, a, k];
    assert [p] + [q, e, a, k] == [p, q, e, a, k] && [Head("Peer")] + [p, q, e, a, k] == [Head("Peer"), p, q, e, a, k];
    assert [Gap] + [Head("Peer"), p, q, e, a, k] == BackRows(s, preshared, allowed);
  }

  lemma BackValues(s: Server, preshared: string, allowed: string)
    ensures var rows := BackRows(s, preshared, allowed);
            RowValue(rows, "PresharedKey") == Some(preshared) && RowValue(rows, "AllowedIPs") == Some(allowed)
  {
    hide RowValue, BackRows;
    BackValue(s, preshared, allowed, "PresharedKey");
    BackValue(s, preshared, allowed, "AllowedIPs");
    FixedNamesDiffer();
  }

  lemma ParamsSetNoFixed(values: Values)
    ensures RowValue(ParamRows(values, AWG_PARAMS), "PresharedKey") == None
    ensures RowValue(ParamRows(values, AWG_PARAMS), "AllowedIPs") == None
  {
    hide RowValue, ParamRows;
    ParamsDoNotSet(values, AWG_PARAMS, "PresharedKey");
    ParamsDoNotSet(values, AWG_PARAMS, "AllowedIPs");
  }

  /** The four values a later resync takes out of an emitted config. */
  lemma EmittedValues(s: Server, private: string, address: string, dns: string, allowed: string, preshared: string)
    requires ServerOk(s) && OneLine(private) && OneLine(address) && OneLine(dns) && OneLine(allowed) && OneLine(preshared)
    ensures var text := EmitClient(s, private, address, dns, allowed, preshared);
            && Value(text, "PrivateKey") == ReadsAs(private) && Value(text, "PresharedKey") == ReadsAs(preshared)
            && Value(text, "DNS") == ReadsAs(dns) && Value(text, "AllowedIPs") == ReadsAs(allowed)
  {
    hide RowValue, ParamRows, FrontRows, BackRows, Value, RowTexts, ReadsAs, GoodRows, Clean;
    var front, middle, back := FrontRows(s, private, address, dns), ParamRows(s.params, AWG_PARAMS), BackRows(s, preshared, allowed);
    var rows := ClientRows(s, private, address, dns, allowed, preshared);
    ClientIsGood(s, private, address, dns, allowed, preshared);
    FrontValues(s, private, address, dns);
    BackValues(s, preshared, allowed);
    ParamsSetNoFixed(s.params);
    Joined(front, middle, back, "PrivateKey");
    Joined(front, middle, back, "DNS");
    Joined(front, middle, back, "PresharedKey");
    Joined(front, middle, back, "AllowedIPs");
    FileReads(rows, "PrivateKey");
    FileReads(rows, "DNS");
    FileReads(rows, "PresharedKey");
    FileReads(rows, "AllowedIPs");
  }

  lemma Joined(front: seq<Row>, middle: seq<Row>, back: seq<Row>, key: string)
    ensures RowValue(front + middle + back, key)
            == if RowValue(front, key).Some? then RowValue(front, key)
               else if RowValue(middle, key).Some? then RowValue(middle, key) else RowValue(back, key)
  {
    hide RowValue;
    RowValueJoin(front + middle, back, key);
    RowValueJoin(front, middle, key);
  }

  // --- widening a route list is done once

  lemma {:induction false} PieceWith(s: string, c: char)
    requires c in s && c != ','
    ensures exists p :: p in SplitOn(s, ',') && c in p
    decreases |s|
  {
    var i := IndexOf(s, ',');
    if i == |s| {
      assert s in SplitOn(s, ',');
    } else if c in s[..i] {
      assert s[..i] in SplitOn(s, ',');
    } else {
      assert s == s[..i] + [','] + s[i + 1..];
      assert c in s[i + 1..];
      PieceWith(s[i + 1..], c);
      var p :| p in SplitOn(s[i + 1..], ',') && c in p;
      assert p in SplitOn(s, ',');
    }
  }

  lemma StripHas(s: string, i: nat)
    requires i < |s| && !IsSpace(s[i])
    ensures s[i] in Strip(s)
  {
    LstripSuffix(s);
    var l := Lstrip(s);
    var n := |s| - |l|;
    assert forall j :: 0 <= j < n ==> IsSpace(s[..n][j]) && s[..n][j] == s[j];
    assert l[i - n] == s[i];
    RstripKeeps(l, i - n);
    RstripPrefix(l);
    assert Rstrip(l)[i - n] == l[i - n];
  }

  lemma {:induction false} TrimHas(parts: seq<string>, p: string)
    requires p in parts && Strip(p) != ""
    ensures Strip(p) in E.Spoken(parts)
  {
    if parts[0] != p {
      TrimHas(parts[1..], p);
    }
  }

  lemma ColonMeansV6(value: string)
    requires ':' in value
    ensures AnyV6(E.Entries(value))
  {
    PieceWith(value, ':');
    var p :| p in SplitOn(value, ',') && ':' in p;
    var i :| 0 <= i < |p| && p[i] == ':';
    StripHas(p, i);
    TrimHas(SplitOn(value, ','), p);
  }

  lemma {:induction false} TrimOfBlank(s: string)
    requires s == ""
    ensures E.Entries(s) == []
  {
    SplitOnWhole(s, ',');
    StripTrimmed("");
    assert E.Spoken([""]) == [] by {
      assert [""][1..] == [];
    }
  }

  /** Clean lists stay clean, and a widened one is left alone from then on. */
  lemma WidenOnce(s: Server, whole: seq<string> -> bool, value: string)
    requires Clean(value)
    ensures var w := WithV6(s, whole, value);
            Clean(w) && WithV6(s, whole, w) == w && (w == "" ==> value == "")
  {
    hide E.Entries;
    var w := WithV6(s, whole, value);
    if w != value {
      if value == "" {
        TrimOfBlank(value);
      }
      StripTrimmed(value);
      assert w[|w| - 1] == '0' && w[0] == value[0];
      assert w[|value| + 2] == ':';
      ColonMeansV6(w);
    }
  }

  // --- one client

  lemma CleanOr(a: string, b: string)
    requires Clean(a) && Clean(b)
    ensures Clean(Or(a, b))
  {
  }

  /** The override and the new network are single values, and the old network is one network: as the
      tunnel's own it is IPv4. */
  predicate AskOk(ask: Ask) {
    Clean(ask.dns)
    && (ask.move.Some? ==> Clean(ask.move.value.1) && ask.move.value.1 != "" && ':' !in ask.move.value.0)
  }

  /** Whether a route list is where a move leaves it: a list that is the old network would move again. */
  predicate Stays(s: Server, whole: seq<string> -> bool, ask: Ask, allowed: string) {
    ask.move.Some? && allowed == ask.move.value.0 ==> WithV6(s, whole, ask.move.value.1) == allowed
  }

  /** A later request with the same override finds a client's new file as it should be exactly when the
      list in it is where the later request's move would leave it. */
  lemma TextIsStable(s: Server, pubkey: string -> Option<string>, whole: seq<string> -> bool, ask: Ask, later: Ask, p: C.Peer,
                     text: string)
    requires ServerOk(s) && MoveOk(ask) && MoveOk(later) && later.dns == ask.dns && OneLine(p.allowedIps)
    requires TextAfter(s, pubkey, whole, ask, p, text).Some?
    ensures var done := TextAfter(s, pubkey, whole, ask, p, text);
            TextAfter(s, pubkey, whole, later, p, done.value) == done
            <==> (HasKeys(pubkey, p, text) ==> Stays(s, whole, later, AllowedFor(s, whole, ask, text)))
  {
    hide EmitClient, Value, WithV6, Clean, ReadsAs, InterfaceAddress, PeerIp;
    if HasKeys(pubkey, p, text) {
      var dns, allowed := DnsFor(s, ask, text), AllowedFor(s, whole, ask, text);
      var private, preshared := Value(text, "PrivateKey"), Value(text, "PresharedKey");
      ValuesAreClean(s, ask, text);
      WidenOnce(s, whole, Moved(ask, Or(Value(text, "AllowedIPs"), s.allowed)));
      AddressIsOneLine(s, p.allowedIps);
      LinesFrom(dns, allowed, private, preshared);
      var address := InterfaceAddress(s, PeerIp(p.allowedIps));
      EmittedValues(s, private, address, dns, allowed, preshared);
      var done := EmitClient(s, private, address, dns, allowed, preshared);
      SecondAllowed(s, whole, ask, later, text, done);
      var next := AllowedFor(s, whole, later, done);
      if next != allowed && !Breaks(dns) && !Breaks(next) {
        CleanNext(s, whole, later, done);
        LinesFrom(dns, next, private, preshared);
        EmittedValues(s, private, address, dns, next, preshared);
      }
    }
  }

  predicate MoveOk(ask: Ask) {
    Clean(ask.dns) && (ask.move.Some? ==> Clean(ask.move.value.1) && ask.move.value.1 != "")
  }

  lemma AskIsMove(ask: Ask)
    requires AskOk(ask)
    ensures MoveOk(ask)
  {
    hide Clean;
  }

  /** What the later request makes of the list it finds in the new file. */
  lemma SecondAllowed(s: Server, whole: seq<string> -> bool, ask: Ask, later: Ask, text: string, done: string)
    requires ServerOk(s) && MoveOk(ask) && MoveOk(later)
    requires Value(done, "AllowedIPs") == AllowedFor(s, whole, ask, text)
    ensures AllowedFor(s, whole, later, done) == AllowedFor(s, whole, ask, text)
            <==> Stays(s, whole, later, AllowedFor(s, whole, ask, text))
  {
    hide Value, WithV6, Clean;
    ValuesAreClean(s, ask, text);
    WidenOnce(s, whole, Moved(ask, Or(Value(text, "AllowedIPs"), s.allowed)));
    var allowed := AllowedFor(s, whole, ask, text);
    CleanIsStripped(allowed);
    if allowed == "" {
      assert Or(Value(text, "AllowedIPs"), s.allowed) == "";
    }
  }

  lemma CleanIsStripped(value: string)
    requires Clean(value)
    ensures Strip(value) == value
  {
    StripTrimmed(value);
  }

  lemma CleanNext(s: Server, whole: seq<string> -> bool, ask: Ask, text: string)
    requires ServerOk(s) && MoveOk(ask)
    ensures Clean(AllowedFor(s, whole, ask, text))
  {
    hide Value, WithV6, Clean;
    ValuesAreClean(s, ask, text);
    WidenOnce(s, whole, Moved(ask, Or(Value(text, "AllowedIPs"), s.allowed)));
  }

  /** A tunnel's own network is never what a list is widened to, so what has moved has moved. */
  lemma MovedStays(s: Server, whole: seq<string> -> bool, ask: Ask, text: string)
    requires ServerOk(s) && AskOk(ask)
    ensures Stays(s, whole, ask, AllowedFor(s, whole, ask, text))
  {
    hide Value, Clean;
    ValuesAreClean(s, ask, text);
    var value := Moved(ask, Or(Value(text, "AllowedIPs"), s.allowed));
    WidenedHasColon(s, whole, value);
    CleanIsStripped(Or(Value(text, "AllowedIPs"), s.allowed));
    CleanIsStripped(value);
  }

  lemma WidenedHasColon(s: Server, whole: seq<string> -> bool, value: string)
    ensures var w := WithV6(s, whole, value); w == value || ':' in w
  {
    hide NeedsV6, Strip;
    var w := WithV6(s, whole, value);
    if w != value { assert w[|Strip(value)| + 2] == ':'; }
  }

  lemma ValuesAreClean(s: Server, ask: Ask, text: string)
    requires ServerOk(s) && MoveOk(ask)
    ensures Clean(Value(text, "PrivateKey")) && Clean(Value(text, "PresharedKey")) && Clean(DnsFor(s, ask, text))
    ensures Clean(Moved(ask, Or(Value(text, "AllowedIPs"), s.allowed)))
    ensures Clean(Value(text, "DNS")) && Clean(Value(text, "AllowedIPs")) && Clean(s.dns) && Clean(s.allowed)
    ensures Moved(ask, Or(Value(text, "AllowedIPs"), s.allowed)) == "" ==> Or(Value(text, "AllowedIPs"), s.allowed) == ""
  {
    hide Value, Clean;
    ValueIsClean(text, "PrivateKey");
    ValueIsClean(text, "PresharedKey");
    ValueIsClean(text, "DNS");
    ValueIsClean(text, "AllowedIPs");
    CleanOr(Value(text, "DNS"), s.dns);
    CleanOr(ask.dns, Or(Value(text, "DNS"), s.dns));
    CleanOr(Value(text, "AllowedIPs"), s.allowed);
  }

  lemma LinesFrom(dns: string, allowed: string, private: string, preshared: string)
    requires Clean(dns) && Clean(allowed) && Clean(private) && Clean(preshared)
    ensures OneLine(dns) && OneLine(allowed) && OneLine(private) && OneLine(preshared)
    ensures ReadsAs(dns) == dns && ReadsAs(allowed) == allowed && ReadsAs(private) == private && ReadsAs(preshared) == preshared
  {
    hide ReadsAs;
    CleanReads(dns);
    CleanReads(allowed);
    CleanReads(private);
    CleanReads(preshared);
  }

  lemma {:induction false} FirstV4Lacks(entries: seq<string>, c: char)
    requires forall i :: 0 <= i < |entries| ==> c !in entries[i]
    ensures c !in FirstV4(entries)
  {
    if entries != [] {
      FirstV4Lacks(entries[1..], c);
      StripChars(entries[0], c);
    }
  }

  lemma {:induction false} SplitLacks(s: string, c: char)
    requires c !in s
    ensures forall i :: 0 <= i < |SplitOn(s, ',')| ==> c !in SplitOn(s, ',')[i]
    decreases |s|
  {
    var i := IndexOf(s, ',');
    if i < |s| {
      SplitLacks(s[i + 1..], c);
    }
  }

  lemma AddressIsOneLine(s: Server, allowedIps: string)
    requires s.net.Valid() && OneLine(allowedIps)
    ensures OneLine(InterfaceAddress(s, PeerIp(allowedIps)))
  {
    hide SplitOn, FirstV4, OffsetOf, S6.HostAddr;
    SplitLacks(allowedIps, '\n');
    FirstV4Lacks(SplitOn(allowedIps, ','), '\n');
    var address := PeerIp(allowedIps);
    if Ip6Of(s, address).Some? {
      Ip6Chars(s, address);
    }
  }

  lemma Ip6Chars(s: Server, address: string)
    requires s.net.Valid() && Ip6Of(s, address).Some?
    ensures OneLine(Ip6Of(s, address).value) && ':' in Ip6Of(s, address).value
  {
    hide S6.RenderPrefix, S6.HostGroups, ParseV4;
    var offset := OffsetOf(s.net, address).value;
    HostAddrOneLine(s.net6.value, offset);
  }

  lemma HostAddrOneLine(p: S6.Prefix64, offset: nat)
    requires 0 < offset < S6.TWO32
    ensures OneLine(S6.HostAddr(p, offset)) && ':' in S6.HostAddr(p, offset)
  {
    JoinOneLine(S6.DropZeros(S6.Groups(p)));
    JoinOneLine(S6.HostGroups(offset));
    var a, b := S6.RenderPrefix(p), S6.JoinColon(S6.Hex(S6.HostGroups(offset)));
    assert (a + "::" + b)[|a|] == ':';
  }

  lemma {:induction false} JoinOneLine(groups: seq<nat>)
    ensures OneLine(S6.JoinColon(S6.Hex(groups)))
  {
    if |groups| > 0 {
      var parts := S6.Hex(groups);
      assert parts[1..] == S6.Hex(groups[1..]);
      JoinOneLine(groups[1..]);
      assert OneLine(parts[0]);
      hide Show;
      assert |groups| > 1 ==> S6.JoinColon(parts) == parts[0] + [':'] + S6.JoinColon(parts[1..]);
    }
  }

  // --- all the clients

  /** No two keyed peers answer to one name, so no two clients share a file. */
  predicate OwnFiles(peers: seq<C.Peer>) {
    forall i, j :: 0 <= i < j < |peers| && Named(peers[i]) && Named(peers[j]) ==> peers[i].name != peers[j].name
  }

  predicate Named(p: C.Peer) {
    p.publicKey != "" && p.name.Some? && p.name.value != ""
  }

  /** Every client's file is what the same request would make of it. */
  ghost predicate Settled(s: Server, pubkey: string -> Option<string>, whole: seq<string> -> bool, ask: Ask,
                          peers: seq<C.Peer>, files: Files)
    requires s.net.Valid()
  {
    forall i :: 0 <= i < |peers| && Takes(peers[i], files) ==>
      TextAfter(s, pubkey, whole, ask, peers[i], files[peers[i].name.value]) == Some(files[peers[i].name.value])
  }

  lemma {:induction false} SettledWritesNothing(s: Server, pubkey: string -> Option<string>, whole: seq<string> -> bool,
                                                ask: Ask, peers: seq<C.Peer>, files: Files, written: nat)
    requires s.net.Valid() && Settled(s, pubkey, whole, ask, peers, files)
    ensures Loop(s, pubkey, whole, ask, peers, files, written) == Some((files, written))
    decreases |peers|
  {
    hide TextAfter;
    if peers != [] {
      forall i | 0 <= i < |peers[1..]| && Takes(peers[1..][i], files)
        ensures TextAfter(s, pubkey, whole, ask, peers[1..][i], files[peers[1..][i].name.value])
                == Some(files[peers[1..][i].name.value])
      {
        assert peers[1..][i] == peers[i + 1];
      }
      if Takes(peers[0], files) {
        assert files[peers[0].name.value := files[peers[0].name.value]] == files;
      }
      SettledWritesNothing(s, pubkey, whole, ask, peers[1..], files, written);
    }
  }

  /** No peer's file has this name. */
  predicate Elsewhere(peers: seq<C.Peer>, name: string) {
    forall i :: 0 <= i < |peers| && Named(peers[i]) ==> peers[i].name.value != name
  }

  /** The loop writes no file but its peers', and creates none. */
  lemma {:induction false} LoopFrame(s: Server, pubkey: string -> Option<string>, whole: seq<string> -> bool, ask: Ask,
                                     peers: seq<C.Peer>, files: Files, written: nat, name: string)
    requires s.net.Valid() && Loop(s, pubkey, whole, ask, peers, files, written).Some?
    ensures var after := Loop(s, pubkey, whole, ask, peers, files, written).value.0;
            && after.Keys == files.Keys
            && (Elsewhere(peers, name) && name in files ==> after[name] == files[name])
    decreases |peers|
  {
    hide TextAfter;
    if peers != [] {
      assert Takes(peers[0], files) ==> Named(peers[0]);
      assert forall i :: 0 <= i < |peers[1..]| ==> peers[1..][i] == peers[i + 1];
      if !Takes(peers[0], files) {
        LoopFrame(s, pubkey, whole, ask, peers[1..], files, written, name);
      } else {
        var own := peers[0].name.value;
        var text := TextAfter(s, pubkey, whole, ask, peers[0], files[own]).value;
        LoopFrame(s, pubkey, whole, ask, peers[1..], files[own := text], if text == files[own] then written else written + 1, name);
      }
    }
  }

  predicate PeersOk(peers: seq<C.Peer>) {
    OwnFiles(peers) && forall i :: 0 <= i < |peers| ==> OneLine(peers[i].allowedIps)
  }

  lemma {:induction false} LoopSettles(s: Server, pubkey: string -> Option<string>, whole: seq<string> -> bool, ask: Ask,
                                       peers: seq<C.Peer>, files: Files, written: nat)
    requires s.net.Valid() && ServerOk(s) && AskOk(ask) && PeersOk(peers)
    requires Loop(s, pubkey, whole, ask, peers, files, written).Some?
    ensures Settled(s, pubkey, whole, ask, peers, Loop(s, pubkey, whole, ask, peers, files, written).value.0)
    decreases |peers|
  {
    hide TextAfter, ServerOk, AskOk, MoveOk, OneLine, Stays, HasKeys;
    if peers != [] {
      var end := Loop(s, pubkey, whole, ask, peers, files, written).value.0;
      assert forall i :: 0 <= i < |peers[1..]| ==> peers[1..][i] == peers[i + 1];
      assert PeersOk(peers[1..]);
      if !Takes(peers[0], files) {
        LoopSettles(s, pubkey, whole, ask, peers[1..], files, written);
        LoopFrame(s, pubkey, whole, ask, peers[1..], files, written, "");
      } else {
        var own := peers[0].name.value;
        var text := TextAfter(s, pubkey, whole, ask, peers[0], files[own]).value;
        var more := if text == files[own] then written else written + 1;
        LoopSettles(s, pubkey, whole, ask, peers[1..], files[own := text], more);
        assert Elsewhere(peers[1..], own);
        LoopFrame(s, pubkey, whole, ask, peers[1..], files[own := text], more, own);
        AskIsMove(ask);
        assert ServerOk(s) && OneLine(peers[0].allowedIps);
        TextIsStable(s, pubkey, whole, ask, ask, peers[0], files[own]);
        MovedStays(s, whole, ask, files[own]);
        assert end[own] == text;
      }
      SettledSplit(s, pubkey, whole, ask, peers, end);
    }
  }

  lemma SettledSplit(s: Server, pubkey: string -> Option<string>, whole: seq<string> -> bool, ask: Ask, peers: seq<C.Peer>,
                     files: Files)
    requires s.net.Valid() && peers != [] && Settled(s, pubkey, whole, ask, peers[1..], files)
    requires Takes(peers[0], files) ==>
               TextAfter(s, pubkey, whole, ask, peers[0], files[peers[0].name.value]) == Some(files[peers[0].name.value])
    ensures Settled(s, pubkey, whole, ask, peers, files)
  {
    hide TextAfter;
    forall i | 0 <= i < |peers| && Takes(peers[i], files)
      ensures TextAfter(s, pubkey, whole, ask, peers[i], files[peers[i].name.value]) == Some(files[peers[i].name.value])
    {
      if i > 0 {
        assert peers[1..][i - 1] == peers[i];
      }
    }
  }

  // --- backfilling

  /** A peer is left alone exactly when it has an IPv6 entry or no IPv6 address is its own. */
  lemma BackfillDone(s: Server, p: C.Peer)
    requires s.net.Valid()
    ensures BackfillOne(s, p) == p <==> ':' in p.allowedIps || Ip6Of(s, PeerIp(p.allowedIps)).None?
  {
    hide Ip6Of, PeerIp;
    if Ip6Of(s, PeerIp(p.allowedIps)).Some? {
      MadeHasColon(s, PeerIp(p.allowedIps));
    }
  }

  lemma BackfillOnce(s: Server, p: C.Peer)
    requires s.net.Valid()
    ensures BackfillOne(s, BackfillOne(s, p)) == BackfillOne(s, p)
  {
    hide Ip6Of, PeerIp;
    BackfillDone(s, p);
    BackfillDone(s, BackfillOne(s, p));
    if BackfillOne(s, p) != p {
      MadeHasColon(s, PeerIp(p.allowedIps));
    }
  }

  lemma MadeHasColon(s: Server, address: string)
    requires s.net.Valid() && Ip6Of(s, address).Some?
    ensures ':' in address + "/32, " + Ip6Of(s, address).value + "/128"
  {
    hide Ip6Of;
    Ip6Chars(s, address);
    var a6 := Ip6Of(s, address).value;
    var i :| 0 <= i < |a6| && a6[i] == ':';
    assert (address + "/32, " + a6 + "/128")[|address| + 5 + i] == ':';
  }

  lemma {:induction false} NothingToBackfill(s: Server, peers: seq<C.Peer>)
    requires s.net.Valid() && forall i :: 0 <= i < |peers| ==> BackfillOne(s, peers[i]) == peers[i]
    ensures Backfill(s, peers) == peers && BackfillCount(s, peers) == 0
  {
    hide BackfillOne;
    if peers != [] {
      assert forall i :: 0 <= i < |peers[1..]| ==> peers[1..][i] == peers[i + 1];
      NothingToBackfill(s, peers[1..]);
    }
  }

  lemma BackfillTwice(s: Server, peers: seq<C.Peer>)
    requires s.net.Valid()
    ensures Backfill(s, Backfill(s, peers)) == Backfill(s, peers) && BackfillCount(s, Backfill(s, peers)) == 0
  {
    hide BackfillOne;
    forall i | 0 <= i < |peers| ensures BackfillOne(s, Backfill(s, peers)[i]) == Backfill(s, peers)[i] {
      BackfillOnce(s, peers[i]);
    }
    NothingToBackfill(s, Backfill(s, peers));
  }

  lemma BackfillOneOk(s: Server, p: C.Peer)
    requires s.net.Valid() && OneLine(p.allowedIps)
    ensures var q := BackfillOne(s, p); OneLine(q.allowedIps) && q.name == p.name && q.publicKey == p.publicKey
  {
    hide Ip6Of, SplitOn, FirstV4;
    SplitLacks(p.allowedIps, '\n');
    FirstV4Lacks(SplitOn(p.allowedIps, ','), '\n');
    if Ip6Of(s, PeerIp(p.allowedIps)).Some? {
      Ip6Chars(s, PeerIp(p.allowedIps));
    }
  }

  lemma BackfillOk(s: Server, peers: seq<C.Peer>)
    requires s.net.Valid() && PeersOk(peers)
    ensures PeersOk(Backfill(s, peers))
  {
    hide BackfillOne, OneLine;
    forall i | 0 <= i < |peers|
      ensures var q := Backfill(s, peers)[i]; OneLine(q.allowedIps) && q.name == peers[i].name && q.publicKey == peers[i].publicKey
    {
      BackfillOneOk(s, peers[i]);
    }
  }

  // --- the config written and read again

  lemma {:induction false} FirstV4Tight(entries: seq<string>)
    ensures FirstV4(entries) != "" ==> !IsSpace(FirstV4(entries)[0])
  {
    if entries != [] {
      FirstV4Tight(entries[1..]);
    }
  }

  lemma NoAddressInNothing()
    ensures ParseV4(Strip("")).None?
  {
    StripTrimmed("");
    SplitOnWhole("", '.');
  }

  lemma PeerIpTight(allowedIps: string)
    requires R.AllowedOk(allowedIps)
    ensures var address := PeerIp(allowedIps);
            '\n' !in address && '#' !in address && (address != "" ==> !IsSpace(address[0]))
  {
    SplitLacks(allowedIps, '\n');
    SplitLacks(allowedIps, '#');
    hide SplitOn, FirstV4, IsSpace;
    FirstV4Lacks(SplitOn(allowedIps, ','), '\n');
    FirstV4Lacks(SplitOn(allowedIps, ','), '#');
    FirstV4Tight(SplitOn(allowedIps, ','));
  }

  lemma MadeAllowed(address: string, a6: string)
    requires address != "" && '\n' !in address && '#' !in address && !IsSpace(address[0]) && '\n' !in a6 && '#' !in a6
    ensures R.AllowedOk(address + "/32, " + a6 + "/128")
  {
    hide IsSpace;
    assert (address + "/32, " + a6 + "/128")[0] == address[0];
  }

  lemma Ip6Lacks(s: Server, address: string)
    requires s.net.Valid() && Ip6Of(s, address).Some?
    ensures address != "" && '\n' !in Ip6Of(s, address).value && '#' !in Ip6Of(s, address).value
  {
    if address == "" { NoAddressInNothing(); }
    hide ParseV4, S6.HostAddr;
    K.HostAddrChars(s.net6.value, OffsetOf(s.net, address).value);
  }

  /** The list a peer is given is one the printer can carry. */
  lemma BackfilledAllowed(s: Server, allowedIps: string)
    requires s.net.Valid() && R.AllowedOk(allowedIps) && Ip6Of(s, PeerIp(allowedIps)).Some?
    ensures R.AllowedOk(PeerIp(allowedIps) + "/32, " + Ip6Of(s, PeerIp(allowedIps)).value + "/128")
  {
    hide PeerIp, Ip6Of, R.AllowedOk;
    PeerIpTight(allowedIps);
    Ip6Lacks(s, PeerIp(allowedIps));
    MadeAllowed(PeerIp(allowedIps), Ip6Of(s, PeerIp(allowedIps)).value);
  }

  lemma BackfilledPeerOk(s: Server, p: C.Peer)
    requires s.net.Valid() && R.PeerOk(p)
    ensures R.PeerOk(BackfillOne(s, p))
  {
    hide Ip6Of, PeerIp, R.PeerHeaderOk, R.ExtraOk, R.KeptLine, R.AllowedOk, R.ValueOk, R.MetaOk;
    if BackfillOne(s, p) != p {
      BackfilledAllowed(s, p.allowedIps);
    }
  }

  lemma BackfilledConfOk(s: Server, c: C.Conf)
    requires s.net.Valid() && R.ConfOk(c)
    ensures R.ConfOk(c.(peers := Backfill(s, c.peers)))
  {
    hide BackfillOne, R.PeerOk, R.ItemOk, R.InterfaceHeaderOk;
    forall i | 0 <= i < |c.peers| ensures R.PeerOk(Backfill(s, c.peers)[i]) {
      BackfilledPeerOk(s, c.peers[i]);
    }
  }

  lemma OneEntry(s: string)
    ensures FirstV4([s]) == if Strip(s) != "" && ':' !in Strip(s) then Strip(s)[..IndexOf(Strip(s), '/')] else ""
  {
    assert [s][1..] == [];
    assert FirstV4([]) == "";
  }

  lemma {:induction false} PeerIpPadded(s: string, pad: string)
    requires AllSpace(pad)
    ensures PeerIp(s + pad) == PeerIp(s)
    decreases |s|
  {
    hide Strip;
    assert ',' !in pad;
    var i := IndexOf(s, ',');
    if i == |s| {
      assert ',' !in s + pad;
      SplitOnWhole(s, ',');
      SplitOnWhole(s + pad, ',');
      OneEntry(s);
      OneEntry(s + pad);
      N.StripPadded(s, pad);
    } else {
      var piece, rest := s[..i], s[i + 1..];
      assert s == piece + [','] + rest && s + pad == piece + [','] + (rest + pad);
      SplitOnStep(piece, ',', rest);
      SplitOnStep(piece, ',', rest + pad);
      PeerIpPadded(rest, pad);
      assert ([piece] + SplitOn(rest, ','))[1..] == SplitOn(rest, ',');
      assert ([piece] + SplitOn(rest + pad, ','))[1..] == SplitOn(rest + pad, ',');
    }
  }

  /** Blanks around AllowedIPs are all a resync could tell a re-read peer by, and it does not look. */
  ghost predicate SameToResync(s: Server, p: C.Peer, q: C.Peer)
    requires s.net.Valid()
  {
    && p.publicKey == q.publicKey && p.name == q.name && PeerIp(p.allowedIps) == PeerIp(q.allowedIps)
    && (':' in p.allowedIps <==> ':' in q.allowedIps)
  }

  lemma RereadSame(s: Server, p: C.Peer)
    requires s.net.Valid() && R.AllowedOk(p.allowedIps)
    ensures SameToResync(s, p, R.NormPeer(p))
  {
    var a := p.allowedIps;
    assert Lstrip(a) == a;
    RstripPrefix(a);
    var pad := a[|Rstrip(a)|..];
    assert a == Strip(a) + pad;
    assert ':' !in pad;
    hide PeerIp, Strip;
    PeerIpPadded(Strip(a), pad);
  }

  lemma SameTurn(s: Server, pubkey: string -> Option<string>, whole: seq<string> -> bool, ask: Ask, p: C.Peer, q: C.Peer, text: string)
    requires s.net.Valid() && SameToResync(s, p, q)
    ensures TextAfter(s, pubkey, whole, ask, p, text) == TextAfter(s, pubkey, whole, ask, q, text)
  {
    hide EmitClient, Value, WithV6, PeerIp, Ip6Of;
  }

  lemma SettledSame(s: Server, pubkey: string -> Option<string>, whole: seq<string> -> bool, ask: Ask, peers: seq<C.Peer>,
                    again: seq<C.Peer>, files: Files)
    requires s.net.Valid() && |peers| == |again| && forall i :: 0 <= i < |peers| ==> SameToResync(s, peers[i], again[i])
    ensures Settled(s, pubkey, whole, ask, peers, files) ==> Settled(s, pubkey, whole, ask, again, files)
    ensures (forall i :: 0 <= i < |peers| ==> BackfillOne(s, peers[i]) == peers[i]) ==>
              forall i :: 0 <= i < |peers| ==> BackfillOne(s, again[i]) == again[i]
  {
    hide TextAfter, BackfillOne, PeerIp, Ip6Of;
    forall i | 0 <= i < |peers| && Takes(again[i], files)
      ensures TextAfter(s, pubkey, whole, ask, peers[i], files[again[i].name.value])
              == TextAfter(s, pubkey, whole, ask, again[i], files[again[i].name.value])
    {
      SameTurn(s, pubkey, whole, ask, peers[i], again[i], files[again[i].name.value]);
    }
    forall i | 0 <= i < |peers| ensures BackfillOne(s, peers[i]) == peers[i] ==> BackfillOne(s, again[i]) == again[i] {
      BackfillDone(s, peers[i]);
      BackfillDone(s, again[i]);
    }
  }

  lemma ConfHasOneLines(c: C.Conf)
    requires R.ConfOk(c) && OwnFiles(c.peers)
    ensures PeersOk(c.peers)
  {
    hide R.PeerHeaderOk, R.ExtraOk, R.KeptLine, R.ValueOk, R.MetaOk, R.ItemOk;
    assert forall i :: 0 <= i < |c.peers| ==> R.PeerOk(c.peers[i]);
  }

  /** What the next resync finds in the config this one wrote. */
  function Reread(s: Server, c: C.Conf): seq<C.Peer>
    requires s.net.Valid()
  {
    C.Parse(C.Render(H.WithHooks(c.(peers := Backfill(s, c.peers))))).peers
  }

  lemma RereadSays(s: Server, c: C.Conf)
    requires s.net.Valid() && R.ConfOk(c)
    ensures Reread(s, c) == R.NormPeers(Backfill(s, c.peers))
    ensures forall i :: 0 <= i < |c.peers| ==> SameToResync(s, Backfill(s, c.peers)[i], Reread(s, c)[i])
  {
    hide R.ConfOk, R.PeerOk, Backfill, C.Parse, C.Render, PeerIp, H.EnsureHooks, R.NormPeer;
    BackfilledConfOk(s, c);
    var written := H.WithHooks(c.(peers := Backfill(s, c.peers)));
    H.WithHooksOk(c.(peers := Backfill(s, c.peers)));
    R.RoundTrip(written);
    forall i | 0 <= i < |c.peers| ensures SameToResync(s, Backfill(s, c.peers)[i], R.NormPeer(Backfill(s, c.peers)[i])) {
      AllowedIn(written, i);
      RereadSame(s, Backfill(s, c.peers)[i]);
    }
  }

  lemma AllowedIn(c: C.Conf, i: nat)
    requires R.ConfOk(c) && i < |c.peers|
    ensures R.AllowedOk(c.peers[i].allowedIps)
  {
    assert R.PeerOk(c.peers[i]);
  }

  /** The same request made again, move and all, with the settings unchanged: whether it starts from the
      object the first one wrote or from the config read again, it backfills no peer and writes no file. */
  lemma ResyncIsIdempotent(s: Server, pubkey: string -> Option<string>, whole: seq<string> -> bool, ask: Ask,
                           c: C.Conf, files: Files)
    requires ServerOk(s) && AskOk(ask) && R.ConfOk(c) && OwnFiles(c.peers)
    requires ResyncFiles(s, pubkey, whole, ask, c.peers, files).Some?
    ensures var (after, _) := ResyncFiles(s, pubkey, whole, ask, c.peers, files).value;
            var kept, reread := Backfill(s, c.peers), Reread(s, c);
            && BackfillCount(s, kept) == 0 && BackfillCount(s, reread) == 0
            && ResyncFiles(s, pubkey, whole, ask, kept, after) == Some((after, 0))
            && ResyncFiles(s, pubkey, whole, ask, reread, after) == Some((after, 0))
  {
    hide Loop, Backfill, BackfillOne, BackfillCount, PeersOk, OwnFiles, Settled, Breaks, Reread, AskOk, R.ConfOk, SameToResync;
    var kept, reread := Backfill(s, c.peers), Reread(s, c);
    var after := ResyncFiles(s, pubkey, whole, ask, c.peers, files).value.0;
    ConfHasOneLines(c);
    BackfillTwice(s, c.peers);
    BackfillOk(s, c.peers);
    LoopSettles(s, pubkey, whole, ask, kept, files, 0);
    SettledWritesNothing(s, pubkey, whole, ask, kept, after, 0);
    RereadSays(s, c);
    BackfilledEach(s, c.peers);
    SettledSame(s, pubkey, whole, ask, kept, reread, after);
    NothingToBackfill(s, reread);
    SettledWritesNothing(s, pubkey, whole, ask, reread, after, 0);
  }

  lemma BackfilledEach(s: Server, peers: seq<C.Peer>)
    requires s.net.Valid()
    ensures forall i :: 0 <= i < |peers| ==> BackfillOne(s, Backfill(s, peers)[i]) == Backfill(s, peers)[i]
  {
    hide BackfillOne;
    forall i | 0 <= i < |peers| ensures BackfillOne(s, Backfill(s, peers)[i]) == Backfill(s, peers)[i] {
      BackfillOnce(s, peers[i]);
    }
  }

  // --- the obfuscation lines

  /** Length, first and last character: enough to tell the names apart. */
  function Shape(key: string): (nat, char, char)
    requires key != ""
  {
    (|key|, key[0], key[|key| - 1])
  }

  function ShapeOf(p: Param): (nat, char, char) {
    match p
    case Jc => (2, 'J', 'c') case Jmin => (4, 'J', 'n') case Jmax => (4, 'J', 'x')
    case S1 => (2, 'S', '1') case S2 => (2, 'S', '2') case S3 => (2, 'S', '3') case S4 => (2, 'S', '4')
    case H1 => (2, 'H', '1') case H2 => (2, 'H', '2') case H3 => (2, 'H', '3') case H4 => (2, 'H', '4')
    case I1 => (2, 'I', '1') case I2 => (2, 'I', '2') case I3 => (2, 'I', '3') case I4 => (2, 'I', '4')
    case I5 => (2, 'I', '5')
    case HeaderProtectionKey => (19, 'H', 'y') case ContentPaddingAddition => (22, 'C', 'n')
    case RekeyAfterTime => (14, 'R', 'e') case RekeyTimeout => (12, 'R', 't') case RejectAfterTime => (15, 'R', 'e')
    case KeepaliveTimeout => (16, 'K', 't') case MaxHandshakeAttempts => (20, 'M', 's')
    case RandomTrailers => (14, 'R', 's') case DisableCookies => (14, 'D', 's') case ListenPort => (10, 'L', 't')
    case MTU => (3, 'M', 'U') case EndpointPort => (12, 'E', 't') case PersistentKeepalive => (19, 'P', 'e')
  }

  lemma NameHasShape(p: Param)
    ensures KeyName(p) != "" && Shape(KeyName(p)) == ShapeOf(p)
  {
  }

  lemma ShapesDiffer(p: Param, q: Param)
    requires p != q
    ensures ShapeOf(p) != ShapeOf(q)
  {
  }

  lemma NamesDiffer(p: Param, q: Param)
    requires p != q
    ensures KeyName(p) != KeyName(q)
  {
    hide KeyName, ShapeOf;
    NameHasShape(p);
    NameHasShape(q);
    ShapesDiffer(p, q);
  }

  lemma {:induction false} ParamValue(values: Values, params: seq<Param>, p: Param)
    ensures RowValue(ParamRows(values, params), KeyName(p))
            == if p in params && IsSet(p, Get(values, p)) then Some(Get(values, p)) else None
  {
    hide KeyName, IsSet, Get;
    if params == [] {
      NoRows(KeyName(p));
    } else {
      var q := params[0];
      var head := if IsSet(q, Get(values, q)) then [Sets(KeyName(q), Get(values, q))] else [];
      ParamValue(values, params[1..], p);
      RowValueJoin(head, ParamRows(values, params[1..]), KeyName(p));
      assert head != [] ==> head[1..] == [];
      if p != q {
        NamesDiffer(p, q);
      }
    }
  }

  lemma OtherName(p: Param, key: string, length: nat, first: char, last: char)
    requires key != "" && Shape(key) == (length, first, last) && ShapeOf(p) != (length, first, last)
    ensures KeyName(p) != key
  {
    hide KeyName, ShapeOf;
    NameHasShape(p);
  }

  lemma NotMirrored(p: Param)
    requires p in AWG_PARAMS
    ensures p != MTU && p != PersistentKeepalive
  {
  }

  /** No setting that is copied has the name of a line the panel writes for itself. */
  lemma FrontShapes(p: Param)
    requires p != MTU && p != PersistentKeepalive
    ensures KeyName(p) != "PrivateKey" && KeyName(p) != "Address" && KeyName(p) != "DNS" && KeyName(p) != "MTU"
  {
    hide KeyName;
    OtherName(p, "PrivateKey", 10, 'P', 'y');
    OtherName(p, "Address", 7, 'A', 's');
    OtherName(p, "DNS", 3, 'D', 'S');
    OtherName(p, "MTU", 3, 'M', 'U');
  }

  lemma BackShapes(p: Param)
    requires p != MTU && p != PersistentKeepalive
    ensures KeyName(p) != "PublicKey" && KeyName(p) != "PresharedKey" && KeyName(p) != "Endpoint"
    ensures KeyName(p) != "AllowedIPs" && KeyName(p) != "PersistentKeepalive"
  {
    hide KeyName;
    OtherName(p, "PublicKey", 9, 'P', 'y');
    OtherName(p, "PresharedKey", 12, 'P', 'y');
    OtherName(p, "Endpoint", 8, 'E', 't');
    OtherName(p, "AllowedIPs", 10, 'A', 's');
    OtherName(p, "PersistentKeepalive", 19, 'P', 'e');
  }

  /** An emitted config carries each of the server's obfuscation settings that is set, with the server's
      value, and no line at all for one that is not. */
  lemma ObfuscationIsCopied(s: Server, private: string, address: string, dns: string, allowed: string, preshared: string, p: Param)
    requires ServerOk(s) && OneLine(private) && OneLine(address) && OneLine(dns) && OneLine(allowed) && OneLine(preshared)
    requires p in AWG_PARAMS
    ensures var lines := RowTexts(ClientRows(s, private, address, dns, allowed, preshared));
            && SplitLines(EmitClient(s, private, address, dns, allowed, preshared)) == lines
            && Lookup(lines, KeyName(p)) == if IsSet(p, Get(s.params, p)) then Some(ReadsAs(Get(s.params, p))) else None
  {
    hide RowValue, ParamRows, FrontRows, BackRows, Lookup, RowTexts, ReadsAs, GoodRow, Clean, KeyName, IsSet, Get, SplitLines;
    var front, middle, back := FrontRows(s, private, address, dns), ParamRows(s.params, AWG_PARAMS), BackRows(s, preshared, allowed);
    var rows := ClientRows(s, private, address, dns, allowed, preshared);
    ClientIsGood(s, private, address, dns, allowed, preshared);
    NotMirrored(p);
    FrontShapes(p);
    BackShapes(p);
    FrontValue(s, private, address, dns, KeyName(p));
    BackValue(s, preshared, allowed, KeyName(p));
    ParamValue(s.params, AWG_PARAMS, p);
    Joined(front, middle, back, KeyName(p));
    RowsAreLines(rows);
    LinesRoundTrip(RowTexts(rows));
    RowsRead(rows, KeyName(p));
  }
}

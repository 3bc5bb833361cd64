/** The client operations as the store performs them: on the parsed objects, in place. */
module ClientObject {
  import opened Text
  import opened Config
  import opened ConfObject
  import opened Clients

  /** _find_peer: the first keyed peer of that name. */
  method FindPeer(conf: ServerConf, name: string) returns (i: nat)
    requires conf.Valid()
    ensures i == Find(conf.PeerViews(), name)
  {
    i := 0;
    ghost var views := conf.PeerViews();
    while i < |conf.peers|
      invariant i <= |conf.peers| && Find(views, name) == i + Find(views[i..], name)
    {
      assert views[i] == conf.peers[i].View() && views[i..][0] == views[i] && views[i..][1..] == views[i + 1..];
      if conf.peers[i].name == Some(name) && conf.peers[i].publicKey != "" {
        return;
      }
      i := i + 1;
    }
  }

  /** _used_hosts: every address some AllowedIPs entry of some peer reserves. */
  method CollectUsedHosts(conf: ServerConf) returns (used: set<nat>)
    requires conf.Valid()
    ensures used == UsedHosts(conf.PeerViews())
  {
    hide ReservedHost;
    used := {};
    ghost var views := conf.PeerViews();
    for i := 0 to |conf.peers|
      invariant UsedHosts(views) == used + UsedHosts(views[i..])
    {
      assert views[i..][0] == conf.peers[i].View() && views[i..][1..] == views[i + 1..];
      var entries := SplitOn(conf.peers[i].allowedIps, ',');
      ghost var before := used;
      for j := 0 to |entries|
        invariant before + ReservedIn(entries) == used + ReservedIn(entries[j..])
      {
        assert entries[j..][0] == entries[j] && entries[j..][1..] == entries[j + 1..];
        var value := ReservedHost(entries[j]);
        if value.Some? {
          used := used + {value.value};
        }
      }
    }
  }

  /** list.remove: the first entry that compares equal goes. */
  method RemoveEntry(conf: ServerConf, entry: PeerEntry)
    requires conf.Valid() && entry in conf.peers
    modifies conf
    ensures conf.Valid() && conf.interface == old(conf.interface) && conf.header == old(conf.header)
    ensures (forall p :: p in conf.peers ==> p in old(conf.peers))
    ensures conf.PeerViews() == RemoveEqual(old(conf.PeerViews()), entry.View())
  {
    ghost var views := conf.PeerViews();
    var i := 0;
    while conf.peers[i].View() != entry.View()
      invariant i < |conf.peers| && entry in conf.peers[i..]
      invariant forall j :: 0 <= j < i ==> views[j] != entry.View()
      decreases |conf.peers| - i
    {
      assert conf.peers[i..] == [conf.peers[i]] + conf.peers[i + 1..];
      i := i + 1;
    }
    RemoveEqualAt(views, i);
    DropAt(conf, i);
  }

  method DropAt(conf: ServerConf, i: nat)
    requires conf.Valid() && i < |conf.peers|
    modifies conf
    ensures conf.Valid() && conf.interface == old(conf.interface) && conf.header == old(conf.header)
    ensures forall p :: p in conf.peers ==> p in old(conf.peers)
    ensures conf.PeerViews() == old(conf.PeerViews())[..i] + old(conf.PeerViews())[i + 1..]
  {
    conf.peers := conf.peers[..i] + conf.peers[i + 1..];
  }

  /** The names of a bulk removal that had a peer behind them when their turn came. */
  function RemovedNames(peers: seq<Peer>, names: seq<string>): seq<string>
    decreases |names|
  {
    if names == [] then []
    else
      match RemoveClient(peers, names[0])
      case Done(rest) => [names[0]] + RemovedNames(rest, names[1..])
      case _ => RemovedNames(peers, names[1..])
  }

  /** The loop of remove_clients. */
  method RemoveNamed(conf: ServerConf, names: seq<string>) returns (removed: seq<string>)
    requires conf.Valid()
    modifies conf
    ensures conf.Valid() && conf.interface == old(conf.interface) && conf.header == old(conf.header)
    ensures conf.PeerViews() == RemoveClients(old(conf.PeerViews()), names)
    ensures removed == RemovedNames(old(conf.PeerViews()), names)
  {
    hide RemoveEqual, Find;
    removed := [];
    ghost var was := conf.PeerViews();
    for n := 0 to |names|
      invariant conf.Valid() && conf.interface == old(conf.interface) && conf.header == old(conf.header)
      invariant RemoveClients(was, names) == RemoveClients(conf.PeerViews(), names[n..])
      invariant RemovedNames(was, names) == removed + RemovedNames(conf.PeerViews(), names[n..])
    {
      assert names[n..][0] == names[n] && names[n..][1..] == names[n + 1..];
      var i := FindPeer(conf, names[n]);
      if i < |conf.peers| {
        RemoveEntry(conf, conf.peers[i]);
        removed := removed + [names[n]];
      }
    }
  }

  /** _peers_by_name: the first keyed entry of every name. */
  method EntriesByName(conf: ServerConf) returns (byName: map<string, nat>)
    requires conf.Valid()
    ensures forall name :: name != "" ==>
              (name in byName <==> Exists(conf.PeerViews(), name))
              && (name in byName ==> byName[name] == Find(conf.PeerViews(), name))
  {
    byName := map[];
    ghost var views := conf.PeerViews();
    for i := 0 to |conf.peers|
      invariant forall name :: name in byName ==> byName[name] < i && Answers(views[byName[name]], name)
                                                  && forall j :: 0 <= j < byName[name] ==> !Answers(views[j], name)
      invariant forall j, name :: 0 <= j < i && name != "" && Answers(views[j], name) ==> name in byName
    {
      var p := conf.peers[i];
      assert views[i] == p.View();
      if p.name.Some? && p.name.value != "" && p.publicKey != "" && p.name.value !in byName {
        byName := byName[p.name.value := i];
      }
    }
    forall name | name != ""
      ensures name in byName <==> Exists(views, name)
      ensures name in byName ==> byName[name] == Find(views, name)
    {
      FindIs(views, name, byName);
    }
  }

  lemma FindIs(views: seq<Peer>, name: string, byName: map<string, nat>)
    requires name in byName ==> byName[name] < |views| && Answers(views[byName[name]], name)
                                && forall j :: 0 <= j < byName[name] ==> !Answers(views[j], name)
    requires forall j :: 0 <= j < |views| && Answers(views[j], name) ==> name in byName
    ensures name in byName <==> Exists(views, name)
    ensures name in byName ==> byName[name] == Find(views, name)
  {
    hide Answers;
    var i := Find(views, name);
  }

  /** Switching peers leaves every name where it was found before. */
  lemma FindAfterSwitch(a: seq<Peer>, b: seq<Peer>, name: string)
    requires |a| == |b|
    requires forall i :: 0 <= i < |a| ==> a[i].name == b[i].name && a[i].publicKey == b[i].publicKey
    ensures Find(a, name) == Find(b, name)
  {
    assert forall i :: 0 <= i < |a| ==> (Answers(a[i], name) <==> Answers(b[i], name));
    hide Answers;
    var i, j := Find(a, name), Find(b, name);
  }

  /** One peer switched, in place. */
  method SwitchEntry(conf: ServerConf, i: nat, enabled: bool, stamp: string) returns (changed: bool)
    requires conf.Valid() && i < |conf.peers|
    modifies conf.peers[i]
    ensures conf.Valid()
    ensures conf.PeerViews() == old(conf.PeerViews())[i := Switched(old(conf.PeerViews())[i], enabled, stamp)]
    ensures changed <==> old(conf.PeerViews())[i].disabledAt.None? != enabled
  {
    var peer := conf.peers[i];
    ghost var before := conf.PeerViews();
    assert before[i] == peer.View();
    changed := peer.disabledAt.None? != enabled;
    if changed {
      peer.disabledAt := if enabled then None else Some(stamp);
    }
    assert conf.peers[i].View() == Switched(before[i], enabled, stamp);
  }

  /** Whether b is a with some peers switched to `enabled` and nothing else changed. */
  predicate OnlySwitched(a: seq<Peer>, b: seq<Peer>, enabled: bool) {
    && |a| == |b|
    && forall i :: 0 <= i < |a| ==>
         && a[i].name == b[i].name && a[i].publicKey == b[i].publicKey
         && (a[i] == b[i] || (a[i].disabledAt.None? != enabled && b[i].disabledAt.None? == enabled))
  }

  lemma SwitchStays(was: seq<Peer>, before: seq<Peer>, i: nat, enabled: bool, stamp: string)
    requires OnlySwitched(was, before, enabled) && i < |before|
    ensures OnlySwitched(was, before[i := Switched(before[i], enabled, stamp)], enabled)
    ensures before[i].disabledAt.None? != enabled ==> before[i := Switched(before[i], enabled, stamp)] != was
    ensures before[i].disabledAt.None? == enabled ==> before[i := Switched(before[i], enabled, stamp)] == before
  {
    var after := before[i := Switched(before[i], enabled, stamp)];
    if before[i].disabledAt.None? != enabled {
      assert after[i] != was[i];
    }
  }

  /** Whether a switch asked for under a name changes anything. */
  predicate Moves(peers: seq<Peer>, name: string, enabled: bool) {
    name != "" && Exists(peers, name) && peers[Find(peers, name)].disabledAt.None? != enabled
  }

  /** What set_clients_enabled reports: the names it moved, in the order asked for. */
  function MovedNames(peers: seq<Peer>, names: seq<string>, enabled: bool): seq<string>
    decreases |names|
  {
    if names == [] then []
    else
      var before := MovedNames(peers, names[..|names| - 1], enabled);
      var last := names[|names| - 1];
      if Moves(peers, last, enabled) && last !in before then before + [last] else before
  }

  /** Reported are exactly the names asked for whose client was in the other state, each once. */
  lemma {:induction false} MovedNamesSays(peers: seq<Peer>, names: seq<string>, enabled: bool)
    ensures forall name :: name in MovedNames(peers, names, enabled) <==> name in names && Moves(peers, name, enabled)
    ensures forall i, j :: 0 <= i < j < |MovedNames(peers, names, enabled)| ==>
              MovedNames(peers, names, enabled)[i] != MovedNames(peers, names, enabled)[j]
    decreases |names|
  {
    hide Moves;
    if names != [] {
      var front, last := names[..|names| - 1], names[|names| - 1];
      MovedNamesSays(peers, front, enabled);
      assert names == front + [last];
    }
  }

  /** Where the loop stands: of the peers it has seen, those it has named are switched, and no other. */
  ghost predicate Standing(was: seq<Peer>, now: seq<Peer>, moved: seq<string>, enabled: bool) {
    && OnlySwitched(was, now, enabled)
    && forall name :: name != "" && Exists(was, name) ==>
         (name in moved <==> was[Find(was, name)].disabledAt.None? != now[Find(was, name)].disabledAt.None?)
  }

  lemma StandingStep(was: seq<Peer>, now: seq<Peer>, moved: seq<string>, name: string, enabled: bool, stamp: string)
    requires Standing(was, now, moved, enabled) && name != "" && Exists(was, name)
    ensures var i := Find(was, name);
            && (now[i].disabledAt.None? != enabled <==> Moves(was, name, enabled) && name !in moved)
            && Standing(was, now[i := Switched(now[i], enabled, stamp)],
                        if now[i].disabledAt.None? != enabled then moved + [name] else moved, enabled)
  {
    var i := Find(was, name);
    var after := now[i := Switched(now[i], enabled, stamp)];
    SwitchStays(was, now, i, enabled, stamp);
    forall other | other != name && other != "" && Exists(was, other) ensures Find(was, other) != i {
      assert Answers(was[i], name);
    }
  }

  /** The loop of set_clients_enabled: the table of names is built once, and each lookup in it lands
      on the peer a search through the list would have found. */
  method SwitchNamed(conf: ServerConf, names: seq<string>, enabled: bool, stamp: string) returns (moved: seq<string>)
    requires conf.Valid()
    modifies conf.peers
    ensures conf.Valid()
    ensures conf.PeerViews() == SetManyEnabled(old(conf.PeerViews()), names, enabled, stamp)
    ensures moved == MovedNames(old(conf.PeerViews()), names, enabled)
    ensures moved != [] <==> conf.PeerViews() != old(conf.PeerViews())
  {
    hide Find, Switched;
    var byName := EntriesByName(conf);
    ghost var was := conf.PeerViews();
    moved := [];
    for n := 0 to |names|
      invariant conf.Valid() && Standing(was, conf.PeerViews(), moved, enabled)
      invariant moved == MovedNames(was, names[..n], enabled)
      invariant moved == [] <==> conf.PeerViews() == was
      invariant SetManyEnabled(was, names, enabled, stamp) == SetManyEnabled(conf.PeerViews(), names[n..], enabled, stamp)
    {
      assert names[n..][0] == names[n] && names[n..][1..] == names[n + 1..];
      assert names[..n + 1][..n] == names[..n];
      FindAfterSwitch(was, conf.PeerViews(), names[n]);
      if names[n] != "" && names[n] in byName {
        var i := byName[names[n]];
        SwitchStays(was, conf.PeerViews(), i, enabled, stamp);
        StandingStep(was, conf.PeerViews(), moved, names[n], enabled, stamp);
        var changed := SwitchEntry(conf, i, enabled, stamp);
        if changed {
          moved := moved + [names[n]];
        }
      }
    }
    assert names[..|names|] == names;
  }
}

/** What the AllowedIPs lines of a peer amount to once they are joined: the entries they list, line after
    line, and the addresses those reserve. */
module ConfEntries {
  import opened Text
  import opened Config
  import opened ConfAllowedLines
  import opened Clients
  import opened Subnet

  // ------------------------------------------------------------------ entries

  /** The pieces that say something, stripped. */
  function Spoken(pieces: seq<string>): seq<string> {
    if pieces == [] then []
    else (if Strip(pieces[0]) == "" then [] else [Strip(pieces[0])]) + Spoken(pieces[1..])
  }

  /** The entries of one AllowedIPs text, as readers list them: split at commas, stripped, empty ones skipped. */
  function Entries(text: string): seq<string> {
    Spoken(SplitOn(text, ','))
  }

  /** The entries of every AllowedIPs line among some lines, one line after the other. */
  function LineEntries(lines: seq<string>): seq<string> {
    if lines == [] then []
    else (if AllowedOn(lines[0]).Some? then Entries(AllowedOn(lines[0]).value) else []) + LineEntries(lines[1..])
  }

  /** What each AllowedIPs line among some lines reserves on its own, taken together. */
  function LineReserves(lines: seq<string>): set<nat> {
    if lines == [] then {}
    else
      (if AllowedOn(lines[0]).Some? then ReservedIn(SplitOn(AllowedOn(lines[0]).value, ',')) else {})
      + LineReserves(lines[1..])
  }

  // ------------------------------------------------------------------ joining two lines

  lemma {:induction false} SplitOnAppend(a: string, c: char, b: string)
    ensures SplitOn(a + [c] + b, c) == SplitOn(a, c) + SplitOn(b, c)
    decreases |a|
  {
    var i := IndexOf(a, c);
    hide IndexOf, SplitOn;
    if i == |a| {
      SplitOnStep(a, c, b);
      SplitOnWhole(a, c);
    } else {
      var piece, rest := a[..i], a[i + 1..];
      SplitOnAppend(rest, c, b);
      assert a == piece + [c] + rest;
      assert a + [c] + b == piece + [c] + (rest + [c] + b);
      SplitOnStep(piece, c, rest);
      SplitOnStep(piece, c, rest + [c] + b);
    }
  }

  /** A blank after the comma changes the first piece only, and only by that blank. */
  lemma SplitPadded(b: string)
    ensures SplitOn(" " + b, ',') == [" " + SplitOn(b, ',')[0]] + SplitOn(b, ',')[1..]
  {
    var i := IndexOf(b, ',');
    if i == |b| {
      SplitOnWhole(b, ',');
      SplitOnWhole(" " + b, ',');
    } else {
      var piece, rest := b[..i], b[i + 1..];
      assert b == piece + [','] + rest && " " + b == " " + piece + [','] + rest;
      SplitOnStep(piece, ',', rest);
      SplitOnStep(" " + piece, ',', rest);
    }
  }

  lemma StripBlank(s: string)
    ensures Strip(" " + s) == Strip(s)
  {
    LstripPad(" ", s);
  }

  lemma {:induction false} SpokenAppend(a: seq<string>, b: seq<string>)
    ensures Spoken(a + b) == Spoken(a) + Spoken(b)
  {
    hide Strip;
    if a == [] {
      assert a + b == b;
    } else {
      assert (a + b)[1..] == a[1..] + b;
      SpokenAppend(a[1..], b);
    }
  }

  /** Only the first piece is padded: neither what is said nor what is reserved changes. */
  lemma PaddedFirst(first: string, rest: seq<string>)
    ensures Spoken([" " + first] + rest) == Spoken([first] + rest)
    ensures ReservedIn([" " + first] + rest) == ReservedIn([first] + rest)
  {
    StripBlank(first);
    assert ReservedHost(" " + first) == ReservedHost(first);
    hide Strip, ReservedHost;
    assert ([" " + first] + rest)[1..] == rest && ([first] + rest)[1..] == rest;
  }

  /** Two lines joined say what the first says and then what the second says. */
  lemma JoinedSays(a: string, b: string)
    ensures Entries(a + ", " + b) == Entries(a) + Entries(b)
    ensures ReservedIn(SplitOn(a + ", " + b, ',')) == ReservedIn(SplitOn(a, ',')) + ReservedIn(SplitOn(b, ','))
  {
    hide SplitOn, Spoken, ReservedIn;
    assert a + ", " + b == a + [','] + (" " + b);
    SplitOnAppend(a, ',', " " + b);
    SplitPadded(b);
    var parts := SplitOn(b, ',');
    assert parts == [parts[0]] + parts[1..];
    PaddedFirst(parts[0], parts[1..]);
    SpokenAppend(SplitOn(a, ','), SplitOn(" " + b, ','));
    ReservedInAppend(SplitOn(a, ','), SplitOn(" " + b, ','));
  }

  lemma NothingSaid()
    ensures Entries("") == [] && ReservedIn(SplitOn("", ',')) == {}
  {
    SplitOnWhole("", ',');
    StripTrimmed("");
    assert [""][1..] == [];
    assert SplitOn("", '.') == [""] by { SplitOnWhole("", '.'); }
  }

  lemma MergeSays(a: string, b: string)
    ensures Entries(MergeAllowed(a, b)) == Entries(a) + Entries(b)
    ensures ReservedIn(SplitOn(MergeAllowed(a, b), ',')) == ReservedIn(SplitOn(a, ',')) + ReservedIn(SplitOn(b, ','))
  {
    hide Entries, ReservedIn, SplitOn;
    NothingSaid();
    if a != "" {
      JoinedSays(a, b);
    } else {
      assert [] + Entries(b) == Entries(b);
    }
  }

  lemma {:induction false} MergeAllSays(a: string, lines: seq<string>)
    ensures Entries(MergeAll(a, Values(lines))) == Entries(a) + LineEntries(lines)
    ensures ReservedIn(SplitOn(MergeAll(a, Values(lines)), ',')) == ReservedIn(SplitOn(a, ',')) + LineReserves(lines)
    decreases |lines|
  {
    hide Entries, ReservedIn, SplitOn, MergeAllowed, AllowedOn;
    if lines != [] {
      if AllowedOn(lines[0]).Some? {
        var value := AllowedOn(lines[0]).value;
        var values := [value] + Values(lines[1..]);
        assert Values(lines) == values && values[1..] == Values(lines[1..]);
        MergeSays(a, value);
        MergeAllSays(MergeAllowed(a, value), lines[1..]);
      } else {
        assert Values(lines) == [] + Values(lines[1..]) == Values(lines[1..]);
        MergeAllSays(a, lines[1..]);
      }
    }
  }

  // ------------------------------------------------------------------ what the parse holds

  /** Peer by peer, a parse lists the entries of the AllowedIPs lines of its block, in the order they
      stand, and reserves what each of those lines reserves on its own: no line takes another's away. */
  lemma PeersSayTheirLines(text: string)
    ensures var blocks, peers := Blocks(SplitLines(text)), Parse(text).peers;
            && |peers| == |blocks|
            && (forall k :: 0 <= k < |peers| ==> Entries(peers[k].allowedIps) == LineEntries(blocks[k]))
            && (forall k :: 0 <= k < |peers| ==> Reserved(peers[k]) == LineReserves(blocks[k]))
  {
    hide FeedAll, SplitLines, MergeAll, Values, Blocks, Entries, ReservedIn, SplitOn, LineEntries, LineReserves;
    var lines := SplitLines(text);
    var blocks, peers := Blocks(lines), Parse(text).peers;
    FeedAllMerges(START, lines);
    assert Alloweds(START.conf.peers) == [];
    assert [] + Found(blocks) == Found(blocks) == Alloweds(peers);
    NothingSaid();
    forall k | 0 <= k < |blocks|
      ensures Entries(peers[k].allowedIps) == LineEntries(blocks[k]) && Reserved(peers[k]) == LineReserves(blocks[k])
    {
      assert Alloweds(peers)[k] == peers[k].allowedIps && Found(blocks)[k] == MergeAll("", Values(blocks[k]));
      MergeAllSays("", blocks[k]);
      assert [] + LineEntries(blocks[k]) == LineEntries(blocks[k]);
    }
  }

  // ------------------------------------------------------------------ what one entry reserves

  /** An address on its own reserves that address, whatever blanks stand around it. */
  lemma BareEntrySays(before: string, address: string, after: string)
    requires AllSpace(before) && AllSpace(after) && Trimmed(address) && '/' !in address
    ensures ReservedHost(before + address + after) == ParseV4(address)
  {
    hide ParseV4, IsSpace;
    StripPad(before, address, after);
    IndexOfNone(address, '/');
    assert address[..|address|] == address;
    StripTrimmed(address);
  }

  /** So does a "/32", and any other prefix reserves nothing. */
  lemma EntrySays(before: string, address: string, gap: string, prefix: string, after: string)
    requires AllSpace(before) && AllSpace(gap) && AllSpace(after)
    requires Trimmed(address) && address != "" && '/' !in address && Trimmed(prefix) && prefix != ""
    ensures ReservedHost(before + (address + gap + ['/'] + (gap + prefix)) + after)
            == if prefix == "32" then ParseV4(address) else None
  {
    NoSlash(gap);
    hide ParseV4, AllSpace, Strip, IndexOf;
    var s := address + gap + ['/'] + (gap + prefix);
    assert s[0] == address[0] && s[|s| - 1] == prefix[|prefix| - 1];
    hide IsSpace;
    StripPad(before, s, after);
    PartitionAt(s, address + gap, '/', gap + prefix);
    AddressGap(address, gap);
    PrefixGap(gap, prefix);
    assert IndexOf(s, '/') < |s|;
  }

  lemma AddressGap(address: string, gap: string)
    requires AllSpace(gap) && Trimmed(address)
    ensures Strip(address + gap) == address
  {
    StripPad("", address, gap);
    assert "" + address + gap == address + gap;
  }

  lemma PrefixGap(gap: string, prefix: string)
    requires AllSpace(gap) && Trimmed(prefix)
    ensures Strip(gap + prefix) == prefix
  {
    StripPad(gap, prefix, "");
    assert gap + prefix + "" == gap + prefix;
  }

  lemma NoSlash(gap: string)
    requires AllSpace(gap)
    ensures '/' !in gap
  {
  }

  /** The addresses an AllowedIPs text reserves are exactly those its entries reserve one by one. */
  lemma {:induction false} ReservedInSays(pieces: seq<string>, n: nat)
    ensures n in ReservedIn(pieces) <==> exists i :: 0 <= i < |pieces| && ReservedHost(pieces[i]) == Some(n)
  {
    hide ReservedHost;
    if pieces != [] {
      ReservedInSays(pieces[1..], n);
      if n in ReservedIn(pieces[1..]) {
        var j :| 0 <= j < |pieces[1..]| && ReservedHost(pieces[1..][j]) == Some(n);
        assert pieces[j + 1] == pieces[1..][j];
      }
      forall i | 1 <= i < |pieces| && ReservedHost(pieces[i]) == Some(n) ensures n in ReservedIn(pieces) {
        assert pieces[1..][i - 1] == pieces[i];
      }
    }
  }
}

/** Which texts are their own normal form after one pass, read off their lines. */
module ConfAllowedLines {
  import opened Text
  import opened Config
  import opened ConfRoundTrip
  import opened ConfNormalForm

  /** What a line adds to a peer's AllowedIPs, or None when it is no AllowedIPs line. */
  function AllowedOn(line: string): Option<string> {
    if Strip(line) == "" || IsComment(line) then None
    else
      match Setting(line)
      case None => None
      case Some((key, value)) => if Fold(key) == "allowedips" then Some(value) else None
  }

  /** A line that ends the peer above it. */
  predicate Closes(line: string) {
    HeaderName(line).Some? || OpensSection(line)
  }

  /** The lines up to the next header. */
  function Body(lines: seq<string>): seq<string> {
    if lines == [] || Closes(lines[0]) then [] else [lines[0]] + Body(lines[1..])
  }

  /** The text peer by peer: the lines below each [Peer] header. */
  function Blocks(lines: seq<string>): seq<seq<string>> {
    if lines == [] then []
    else (if IsHeader(lines[0], "peer") then [Body(lines[1..])] else []) + Blocks(lines[1..])
  }

  /** The values of a block's AllowedIPs lines, in order. */
  function Values(body: seq<string>): seq<string> {
    if body == [] then []
    else (if AllowedOn(body[0]).Some? then [AllowedOn(body[0]).value] else []) + Values(body[1..])
  }

  /** The last AllowedIPs line of a block says nothing and one before it says something. */
  predicate TrailsEmpty(body: seq<string>) {
    var values := Values(body);
    values != [] && values[|values| - 1] == "" && SomeSays(values[..|values| - 1])
  }

  function MergeAll(allowed: string, values: seq<string>): string
    decreases |values|
  {
    if values == [] then allowed else MergeAll(MergeAllowed(allowed, values[0]), values[1..])
  }

  lemma {:induction false} MergeAllLast(allowed: string, values: seq<string>, last: string)
    ensures MergeAll(allowed, values + [last]) == MergeAllowed(MergeAll(allowed, values), last)
    decreases |values|
  {
    hide MergeAllowed;
    if values == [] {
      assert values + [last] == [last] && [last][1..] == [];
    } else {
      assert (values + [last])[1..] == values[1..] + [last];
      MergeAllLast(MergeAllowed(allowed, values[0]), values[1..], last);
    }
  }

  predicate SomeSays(values: seq<string>) {
    exists i :: 0 <= i < |values| && values[i] != ""
  }

  lemma SomeSaysLast(values: seq<string>, last: string)
    ensures SomeSays(values + [last]) <==> SomeSays(values) || last != ""
  {
    var all := values + [last];
    assert all[|values|] == last;
    assert forall i :: 0 <= i < |values| ==> all[i] == values[i];
  }

  lemma {:induction false} MergedSays(values: seq<string>)
    ensures MergeAll("", values) != "" <==> SomeSays(values)
    decreases |values|
  {
    if values != [] {
      var front, last := values[..|values| - 1], values[|values| - 1];
      hide SomeSays, MergeAll;
      assert values == front + [last];
      MergedSays(front);
      MergeAllLast("", front, last);
      SomeSaysLast(front, last);
    }
  }

  lemma MergedEndsBlank(allowed: string, last: string)
    requires Trimmed(last)
    ensures EndsBlank(MergeAllowed(allowed, last)) <==> last == "" && allowed != ""
  {
    if allowed != "" {
      var merged := allowed + ", " + last;
      if last == "" {
        assert merged[|merged| - 1] == ' ';
      } else {
        assert merged[|merged| - 1] == last[|last| - 1];
      }
    }
  }

  lemma TrailingSays(values: seq<string>)
    requires forall i :: 0 <= i < |values| ==> Trimmed(values[i])
    ensures EndsBlank(MergeAll("", values))
            <==> values != [] && values[|values| - 1] == "" && SomeSays(values[..|values| - 1])
  {
    if values != [] {
      var front, last := values[..|values| - 1], values[|values| - 1];
      hide SomeSays, MergeAll, EndsBlank, MergeAllowed;
      assert values == front + [last];
      MergeAllLast("", front, last);
      MergedSays(front);
      MergedEndsBlank(MergeAll("", front), last);
    }
  }

  lemma {:induction false} ValuesTrimmed(body: seq<string>)
    ensures forall i :: 0 <= i < |Values(body)| ==> Trimmed(Values(body)[i])
  {
    if body != [] {
      ValuesTrimmed(body[1..]);
    }
  }

  // ------------------------------------------------------------------ what the parser makes of them

  function Alloweds(peers: seq<Peer>): (r: seq<string>)
    ensures |r| == |peers|
  {
    seq(|peers|, i requires 0 <= i < |peers| => peers[i].allowedIps)
  }

  function MergeOn(allowed: string, line: string): string {
    if AllowedOn(line).Some? then MergeAllowed(allowed, AllowedOn(line).value) else allowed
  }

  lemma FeedPeerMerges(p: Peer, line: string)
    ensures FeedPeer(p, line).allowedIps == MergeOn(p.allowedIps, line)
  {
    hide Strip, ParseInt, MetaOf, IsComment, Setting, MergeAllowed;
  }

  lemma FeedMerges(s: Parser, line: string)
    requires s.Valid()
    ensures var r := Feed(s, line); var was := Alloweds(s.conf.peers);
            && r.inPeer == (IsHeader(line, "peer") || (s.inPeer && !Closes(line)))
            && Alloweds(r.conf.peers)
               == if IsHeader(line, "peer") then was + [""]
                  else if s.inPeer && !Closes(line) then was[|was| - 1 := MergeOn(was[|was| - 1], line)]
                  else was
  {
    hide FeedPeer, MergeOn, InterfaceItem, RstripBreaks, Strip, Fold;
    if s.inPeer {
      FeedPeerMerges(s.conf.peers[|s.conf.peers| - 1], line);
    }
  }

  /** What the blocks to come amount to, peer by peer. */
  function Found(blocks: seq<seq<string>>): (r: seq<string>)
    ensures |r| == |blocks|
  {
    seq(|blocks|, i requires 0 <= i < |blocks| => MergeAll("", Values(blocks[i])))
  }

  /** What the lines up to the next header make of the peer they are in. */
  function Current(was: seq<string>, inPeer: bool, lines: seq<string>): (r: seq<string>)
    requires inPeer ==> was != []
    ensures |r| == |was|
  {
    if inPeer then was[|was| - 1 := MergeAll(was[|was| - 1], Values(Body(lines)))] else was
  }

  lemma {:induction false} FeedAllMerges(s: Parser, lines: seq<string>)
    requires s.Valid()
    ensures Alloweds(FeedAll(s, lines).conf.peers) == Current(Alloweds(s.conf.peers), s.inPeer, lines) + Found(Blocks(lines))
    decreases |lines|
  {
    hide Feed, MergeOn, Closes, Alloweds, Current, Found, IsHeader, Body;
    var was := Alloweds(s.conf.peers);
    if lines == [] {
      NothingToCome(was, s.inPeer);
    } else {
      FeedMerges(s, lines[0]);
      FeedAllMerges(Feed(s, lines[0]), lines[1..]);
      if IsHeader(lines[0], "peer") {
        NewBlock(was, s.inPeer, lines);
      } else {
        SameBlock(was, s.inPeer, lines);
        assert Blocks(lines) == Blocks(lines[1..]);
      }
    }
  }

  lemma NothingToCome(was: seq<string>, inPeer: bool)
    requires inPeer ==> was != []
    ensures Current(was, inPeer, []) + Found(Blocks([])) == was
  {
  }

  lemma FoundMore(body: seq<string>, rest: seq<seq<string>>)
    ensures Found([body] + rest) == [MergeAll("", Values(body))] + Found(rest)
  {
    hide MergeAll, Values;
  }

  lemma BlocksMore(lines: seq<string>)
    requires lines != [] && IsHeader(lines[0], "peer")
    ensures Blocks(lines) == [Body(lines[1..])] + Blocks(lines[1..]) && Body(lines) == []
  {
    hide OpensSection, Fold, Strip;
  }

  lemma NewBlock(was: seq<string>, inPeer: bool, lines: seq<string>)
    requires (inPeer ==> was != []) && lines != [] && IsHeader(lines[0], "peer")
    ensures Current(was, inPeer, lines) + Found(Blocks(lines))
            == Current(was + [""], true, lines[1..]) + Found(Blocks(lines[1..]))
  {
    hide MergeAllowed, AllowedOn, IsHeader, Body, Blocks, Found;
    var body, rest := Body(lines[1..]), Blocks(lines[1..]);
    BlocksMore(lines);
    FoundMore(body, rest);
    assert Current(was, inPeer, lines) == was;
    hide MergeAll, Values;
    assert Current(was + [""], true, lines[1..]) == was + [MergeAll("", Values(body))];
  }

  lemma SameBlock(was: seq<string>, inPeer: bool, lines: seq<string>)
    requires (inPeer ==> was != []) && lines != [] && !IsHeader(lines[0], "peer")
    ensures Current(was, inPeer, lines)
            == if inPeer && !Closes(lines[0]) then Current(was[|was| - 1 := MergeOn(was[|was| - 1], lines[0])], true, lines[1..])
               else Current(was, false, lines[1..])
  {
    hide MergeAllowed, AllowedOn, Closes, MergeOn;
    if inPeer {
      if Closes(lines[0]) {
        assert Body(lines) == [] && Values([]) == [];
      } else {
        BodyMerges(was[|was| - 1], lines);
      }
    }
  }

  lemma BodyMerges(allowed: string, lines: seq<string>)
    requires lines != [] && !Closes(lines[0])
    ensures MergeAll(allowed, Values(Body(lines))) == MergeAll(MergeOn(allowed, lines[0]), Values(Body(lines[1..])))
  {
    hide MergeAllowed, AllowedOn, Closes;
    var rest := Values(Body(lines[1..]));
    assert Body(lines)[0] == lines[0] && Body(lines)[1..] == Body(lines[1..]);
    if AllowedOn(lines[0]).Some? {
      assert Values(Body(lines)) == [AllowedOn(lines[0]).value] + rest;
      assert ([AllowedOn(lines[0]).value] + rest)[1..] == rest;
    } else {
      assert Values(Body(lines)) == [] + rest == rest;
    }
  }

  /** One pass reaches the normal form for exactly the texts in which no peer has an empty AllowedIPs
      line as its last after one that says something. */
  lemma NormalFormByLines(text: string)
    ensures Render(Parse(Render(Parse(text)))) == Render(Parse(text))
            <==> forall i :: 0 <= i < |Blocks(SplitLines(text))| ==> !TrailsEmpty(Blocks(SplitLines(text))[i])
  {
    hide Render, Parse, EndsBlank, SplitLines, Blocks, TrailsEmpty;
    NormalForm(text);
    BlocksArePeers(text);
  }

  /** Block by block, the peers of a text. */
  lemma BlocksArePeers(text: string)
    ensures var blocks, peers := Blocks(SplitLines(text)), Parse(text).peers;
            |peers| == |blocks|
            && forall i :: 0 <= i < |peers| ==> (EndsBlank(peers[i].allowedIps) <==> TrailsEmpty(blocks[i]))
  {
    hide FeedAll, EndsBlank, SplitLines, MergeAll, Values, Blocks, SomeSays;
    var lines := SplitLines(text);
    var blocks, peers := Blocks(lines), Parse(text).peers;
    FeedAllMerges(START, lines);
    assert Alloweds(START.conf.peers) == [];
    assert [] + Found(blocks) == Found(blocks) == Alloweds(peers);
    forall i | 0 <= i < |blocks| ensures EndsBlank(peers[i].allowedIps) <==> TrailsEmpty(blocks[i]) {
      assert Alloweds(peers)[i] == peers[i].allowedIps && Found(blocks)[i] == MergeAll("", Values(blocks[i]));
      ValuesTrimmed(blocks[i]);
      TrailingSays(Values(blocks[i]));
    }
  }
}

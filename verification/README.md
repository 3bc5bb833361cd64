# The AmneziaWG panel's core, modelled and proved in Dafny

This project models the framework-free core of the panel, the code under `panel/awg/` that edits the
server's configuration, shapes and accounts its clients' traffic and draws its obfuscation settings, and
proves what that code is for. `dafny verify dfyconfig.toml` checks all of it.

The parts, and the files that hold them:

- **The configuration file.** `Config` is the parser and the printer as functions on values;
  `ConfGrammar` says which lines it reads as what, `ConfMeaning` and `ConfEntries` what a parse holds of
  the lines of a text; `ConfRoundTrip`, `ConfNormalForm` and `ConfAllowedLines` relate parser and printer,
  `ConfStrip` relates them to what the kernel is given. `Section` specifies ordered edits of the `[Interface]` section and `Hooks`
  the panel's own hook lines. `SectionObject` and `ConfObject` are the objects that the source mutates in
  place, each method proved against those functions.
- **Threads sharing that file.** `PrivateCaches` is a state machine: threads with private cached parses,
  a re-entrant lock, failed and interrupted writes and rewrites from outside, interleaved in any order.
- **Clients and their addresses.** `Subnet`, `Subnet6`, `Clients`, `ClientRuns` and `ClientObject`:
  allocation of the lowest free address, derived IPv6 addresses, and the kernel's peer set over whole
  runs of edits, each from the file or from the object a thread wrote last. `ClientWrites` and
  `ClientBulk` say field by field what each operation writes, `ClientSection` what it leaves of the
  `[Interface]` section. `ClientReadings` compares
  the two, `ClientRuns6` follows the IPv6 addresses over those runs, `ClientCapacity` says how many adds
  are left, and `NameBreaks` and `ClientNames` are about names that end in a line feed. `ClientConf`,
  `Resync`, `ResyncWrites` and `ResyncIdempotent` are the clients' own config files.
- **Traffic shaping.** `ShaperIds` is the arithmetic, `ShaperTree` the kernel's classes, hash tables and
  filters with the effect of each tc command, `ShaperLimits` and `ShaperRuns` one client's commands and
  the invariant that the tree is a function of the ceilings, `ShaperClassify` what a packet meets,
  `ShaperAttach` the structure, `ShaperObject` and `ShaperBatch` the object with its command queue;
  `ShaperWhole` puts all of it together.
- **Traffic accounting.** `Traffic` is the fold and a state machine of counters and restarts;
  `TrafficObject` is the fold done in place, and `TrafficRekey` follows a client through key resets.
- **Settings files and versions.** `EnvFile`, `EnvUpdate`, `EnvTheorems` and `EnvObject` are the
  shell-assignment rewriter, `EnvLines` and `EnvWords` the lines and words it reads; `Release` is version ordering and
  `ReleaseTags` the tags that are versions.
- **Obfuscation.** `Params`, `Timers`, `Validation`, `ValidationMeaning` and `ValidationLoop` are the
  validator, and `ValidationPromise` and `ImitationGrammar` say what it promises without its tests;
  `Imitation`, `Decoys`, `Generator` and `Generation` are the generator, whose random source may return
  anything; `GenerationValid` puts the two together, and `Base64Key` is the spelling of a drawn key.

`Text` holds the string operations all of them use.

What the world supplies is a parameter or a nondeterministic step: file stamps, the clock, the random
source, the kernel's answers, key derivation, the detected endpoint. A premise that a result needs is in
its contract, and a lemma beside it gives the input that fails without it:
`ConfNormalForm.NormalFormNeedsNoBlank`, `PrivateCaches.StatMustFollowWrite`,
`PrivateCaches.EditAfterWriteLeaks`, `PrivateCaches.ReadOutsideLosesUpdate`,
`PrivateCaches.HashIsCutOff`, `PrivateCaches.BrokenNameShows`, `ClientNames.AbcTwice`,
`ClientNames.AbcFromOwnObject`, `Traffic.OldReadingCountsTwice`, `Traffic.LateReadingCountsTwice`,
`TrafficRekey.UnzeroedRowLoses`, `Traffic.PatchyEpochCountsTwice`, `Traffic.EndingTooSoonCountsTwice`,
`EnvTheorems.VerticalTabIsLost`, `Release.FifthPartIsDropped`.

Where the code does not do what it is meant to, the model follows the code:

- Printing, parsing and printing again is not a fixed point for every text: an AllowedIPs line repeated
  with nothing in it leaves a trailing blank that the second parse drops. `ConfNormalForm.NormalForm`
  says exactly when the first two prints agree, `ConfAllowedLines.NormalFormByLines` says it of the
  text's lines; from the second print on they always do.
- A client name is checked against a pattern that also matches in front of one line feed at the end. Such
  a name is looked up as it stands, printed over two lines and read back without the line feed, so it can
  become the second client of a name; and the thread that wrote it keeps an object in which it still has
  the line feed, so a later name can become the second as well. `ClientNames.AddNamesExact` and
  `ClientNames.RenameNamesExact` say exactly when, and `ClientReadings` when the object may stand for the
  file.
- A traffic reading is taken before the lock that guards its fold, so one process may fold a reading older
  than what another has folded since; the fold takes the lower figure for a restarted counter and counts
  it again. `Traffic.FoldIsExact` and `Traffic.SafeFoldIsExact` say exactly which folds are safe. That the
  total stays within what was counted is proved in one direction only, from the order of the readings: an
  unsafe fold may hide behind traffic that was never read, and then the total is within the count by luck.
- Giving IPv6 to a peer that has none replaces its whole list of routes: a client of the pool with further
  IPv4 networks behind it is left without them. `ResyncWrites.FurtherRoutesGo` is the family of inputs.
- `update_env` refuses values with a line feed or a carriage return, but `read_env` also ends lines at a
  vertical tab, a form feed, the separators U+001C to U+001E, U+0085, U+2028 and U+2029, and the key
  pattern accepts a name followed by a line feed. `EnvTheorems.UpdateRoundTrip` says exactly which
  updates read back.

## Model

| member | source | states |
|---|---|---|
| `Config.FeedAllAppend` | panel/awg/conf.py:400-431 | parsing is a left-to-right fold: reading two runs of lines is reading the first and then the second from where it left off |
| `Config.IntRoundTrip` | panel/awg/conf.py:355-397 | a keepalive that was printed is read back as the same number, negative ones included |
| `ConfGrammar.SettingReads` | panel/awg/conf.py:71-85 | every line with a key and a value around an equals sign, blanks around them and a remark after them or not, is read as that setting |
| `ConfGrammar.SettingIs` | panel/awg/conf.py:71-85 | and no other line is |
| `ConfGrammar.MarkReads` | panel/awg/conf.py:68 | every comment that starts with a marker's tag and an equals sign gives the marker what follows, stripped |
| `ConfGrammar.MarkIs` | panel/awg/conf.py:68 | and no other line does |
| `ConfGrammar.HeadReads` | panel/awg/conf.py:50-60 | every name in brackets with nothing after it but a remark is a header of that name |
| `ConfGrammar.HeadIs` | panel/awg/conf.py:50-60 | and no other line is one |
| `ConfGrammar.OpensIs` | panel/awg/conf.py:61-67 | a line ends the section above it exactly when its first character that is no blank is a bracket |
| `ConfMeaning.PeersSayTheirBlocks` | panel/awg/conf.py:355-431 | peer by peer a parse is its header and what the lines below it say: of the keys, the name and the times the last line that gives each, in any case of the key, and every other setting and comment in the order it stands |
| `ConfMeaning.InterfaceSaysItsLines` | panel/awg/conf.py:400-431 | no line outside the peers is lost, added, changed or moved, each is read for what it says, and the section's header is the first [Interface] of the text |
| `ConfMeaning.EveryLineCounts` | panel/awg/conf.py:400-431 | every line of a text goes to exactly one place: the section, a header or a block |
| `ConfEntries.PeersSayTheirLines` | panel/awg/conf.py:379-393 | splitting a parsed peer's AllowedIPs at commas gives the entries of all AllowedIPs lines of its block, in order, and the peer reserves exactly what each of those lines reserves on its own |
| `ConfEntries.EntrySays` | panel/awg/store.py:1695-1724 | an address with a "/32" reserves that address, blanks or not, and with any other prefix nothing |
| `ConfEntries.BareEntrySays` | panel/awg/store.py:1695-1724 | and so does an address on its own |
| `ConfRoundTrip.RoundTrip` | panel/awg/conf.py:400-469 | for every configuration the printer can carry, parsing its text gives the same peers, settings in order, comments and raw lines back, an empty field and an absent one identified, plus only the blank the printer puts before a peer block |
| `ConfNormalForm.FeedOk` | panel/awg/conf.py:340-431 | whatever line is fed, the object being built stays one the printer can carry |
| `ConfNormalForm.ParseOk` | panel/awg/conf.py:400-431 | what is parsed out of any text at all can be printed and parsed again |
| `ConfNormalForm.NormalForm` | panel/awg/conf.py:400-469 | render(parse(render(parse(t)))) == render(parse(t)) for a text t if and only if no peer of t has merged AllowedIPs that end in whitespace |
| `ConfAllowedLines.BlocksArePeers` | panel/awg/conf.py:340-431 | the peers of a text are its blocks, and one's merged AllowedIPs end in whitespace exactly when the last AllowedIPs line of its block is empty and an earlier one is not |
| `ConfAllowedLines.NormalFormByLines` | panel/awg/conf.py:400-469 | so the first two prints of a text agree if and only if no peer of it has an empty AllowedIPs line as its last after one that says something |
| `ConfNormalForm.SecondPassIsFixed` | panel/awg/conf.py:400-469 | from the second pass on the text is fixed for every t, without a premise |
| `ConfNormalForm.EndsBlankStep` | panel/awg/conf.py:390-393 | AllowedIPs comes to end in whitespace only by merging an empty repeated line |
| `ConfNormalForm.NormalFormNeedsNoBlank` | panel/awg/conf.py:390-393 | an AllowedIPs line repeated with nothing in it is a text whose first two prints differ |
| `ConfStrip.StripReadsBack` | panel/awg/conf.py:494-521 | parsing what awg-quick strip would print gives exactly the enabled, keyed peers that are not excluded, in order, with their AllowedIPs, preshared key, endpoint and keepalive, and exactly the settings whose key is none of the nine that awg-quick acts on itself |
| `NameBreaks.LinesFound` | panel/awg/conf.py:331-336 | lines some of which end in a line feed are found, once joined and split, as themselves or as two lines each |
| `NameBreaks.ReadsBackBare` | panel/awg/conf.py:434-469 | a configuration whose names end in line feeds prints to a text that parses to the same configuration with the names bare, and to nothing else |
| `NameBreaks.StripConfBare` | panel/awg/conf.py:494-521 | and the kernel is given the same text either way |
| `ConfObject.PeerEntry.Feed` | panel/awg/conf.py:355-397 | feeding a line to the peer object changes its fields in place to what the value parser says, and nothing else; what that is on the lines is ConfMeaning.PeersSayTheirBlocks and ConfEntries.PeersSayTheirLines |
| `ConfObject.ParseConf` | panel/awg/conf.py:400-431 | the loop over lines with its current-peer variable builds an object that shows exactly the parse of the text, whose peers and section the ConfMeaning and ConfEntries rows state on the lines |
| `ConfObject.CloneConf` | panel/awg/conf.py:290-330 | the clone shows the same configuration and shares no section, item or peer object with the original |
| `ConfObject.RenderConf` | panel/awg/conf.py:459-469 | appending to the line list prints exactly what the value printer prints |
| `ConfObject.EnsureConfHooks` | panel/awg/store.py:1436-1483 | the in-place edit of the section leaves it as the hook specification says and touches no peer |
| `Section.SetAllSays` | panel/awg/conf.py:183-200 | after set_all(k, vs) a case-insensitive all(k) is vs, and every other setting, comment, blank and raw line is there in the same order |
| `Section.SetAllKeepsOthers` | panel/awg/conf.py:183-200 | no other key changes its values |
| `Section.SetAllRun` | panel/awg/conf.py:164-200 | the new values stand together in one run, and the key is nowhere else in the section |
| `Section.SetAllTwice` | panel/awg/conf.py:183-200 | setting the same values again changes nothing |
| `Section.RunSurvives` | panel/awg/conf.py:183-200 | a run of values stays together when another key is set |
| `SectionObject.OrderedMulti.SetValues` | panel/awg/conf.py:183-200 | rewriting, deleting and inserting items in place gives what the specification of set_all gives |
| `SectionObject.OrderedMulti.Set` | panel/awg/conf.py:164-181 | likewise for a single value |
| `SectionObject.OrderedMulti.Delete` | panel/awg/conf.py:202-210 | deleting by index from the back leaves every item that is not the key's, in order |
| `SectionObject.OrderedMulti.Values` | panel/awg/conf.py:160-162 | all(k) is the values of the key's items in order |
| `SectionObject.OrderedMulti.Get` | panel/awg/conf.py:155-158 | get(k) is the first of them, or nothing when there is none |
| `SectionObject.OrderedMulti.Copy` | panel/awg/conf.py:229-240 | the copy shows the same items and shares none of the objects |
| `Hooks.EnsureHooksSays` | panel/awg/store.py:1436-1475 | every panel hook slot gets exactly the specified values, and everything outside the panel's own lines keeps its order |
| `Hooks.HooksStandOnce` | panel/awg/store.py:1436-1475 | each panel hook is there exactly once, at its fixed place, whichever of them the file had |
| `Hooks.RetargetSays` | panel/awg/store.py:1478-1483 | a line that runs one of the two retired commands becomes the panel's hook for it, any other line stays, and what comes out runs neither |
| `Hooks.NoneRetired` | panel/awg/store.py:1436-1483 | no write leaves a retired command in any of the three slots |
| `Hooks.OthersKeep` | panel/awg/store.py:1436-1475 | lines of the operator's own all stay, in order |
| `Hooks.EnsureHooksTwice` | panel/awg/store.py:1436-1475 | ensuring the hooks again changes nothing |
| `Hooks.RetargetTwice` | panel/awg/store.py:1478-1483 | retargeting a retired hook line is done once |
| `Hooks.WithHooksOk` | panel/awg/store.py:1387-1400 | a configuration that can be printed still can be once it has its hooks |
| `PrivateCaches.PrintedLooksParsed` | panel/awg/store.py:1387-1400 | the object just printed shows the same peers and ordered settings as a parse of what was printed |
| `PrivateCaches.StepKeeps` | panel/awg/store.py:1342-1400 | every step of every thread, every outside rewrite, every failed write and every write that raises after the replace keeps the invariant tying caches, stamps and the lock together |
| `PrivateCaches.EveryReadIsFresh` | panel/awg/store.py:1342-1384 | in any interleaving, what a read hands out is the file's own parse or the object the file was printed from; line feeds at the end of names apart it shows what a fresh parse of the file as it then is would show, and just that if and only if no name in it ends in one |
| `PrivateCaches.EditsStayPrivate` | panel/awg/store.py:1342-1384 | no edit of a handed-out object changes what any thread's cache holds or what another holder sees |
| `PrivateCaches.OneWriter` | panel/awg/lock.py:58-99 | only the thread that holds the re-entrant lock replaces the file, and no other thread is inside it at any depth |
| `PrivateCaches.NoLostUpdate` | panel/awg/store.py:1387-1400 | of a thread that reads the config and later writes that object, inside its outermost `with` all the while: no other thread writes in between, and the file it replaces is the very version it read, showing what it was handed, exactly when neither it nor an outsider has replaced the file since |
| `PrivateCaches.DepthIsNesting` | panel/awg/lock.py:58-99 | how deep a thread is in the lock is the number of times it has entered less the times it has left, in every interleaving |
| `PrivateCaches.ReadOutsideLosesUpdate` | panel/awg/store.py:1342-1400 | the premise is needed: a thread that reads before it takes the lock puts back a file without what another thread wrote in between |
| `PrivateCaches.OwnWriteIsRemembered` | panel/awg/store.py:1387-1400 | a thread's own write answers its next read with the very object that was written |
| `PrivateCaches.StatMustFollowWrite` | panel/awg/store.py:1387-1400 | the premise is needed: a rewrite between the write and its stat leaves a cache that does not show the file |
| `PrivateCaches.EditAfterWriteLeaks` | panel/awg/store.py:1342-1400 | the premise is needed: an object edited after it was written is what the thread's next read shows, though the file says something else |
| `PrivateCaches.BrokenNameShows` | panel/awg/conf.py:434-456 | the premise is needed: exactly when some name ends in a line feed the object printed shows something else than a parse of what was printed |
| `PrivateCaches.HashIsCutOff` | panel/awg/conf.py:71-85 | the premise is needed: a value with a "#" shows differently once it has been printed and parsed |
| `Subnet.NextFree` | panel/awg/subnet.py:126-136 | the scan returns the lowest pool address that is not used, and none exactly when every pool address is |
| `Subnet.HostsCount` | panel/awg/subnet.py:102-114 | the pool has exactly capacity() addresses |
| `Subnet.V4RoundTrip` | panel/awg/subnet.py:139-144 | every IPv4 address is read back from its dotted spelling |
| `Subnet.V4IsItsSpelling` | panel/awg/subnet.py:139-144 | and no other spelling is read as an address |
| `Subnet6.RenderPrefixLoop` | panel/awg/subnet6.py:134-144 | popping trailing zero groups gives the specified prefix |
| `Subnet6.HostAddrExpands` | panel/awg/subnet6.py:169-182 | expanding host_addr by section 2.2 of RFC 4291 gives exactly network + offset, for every /64 and every offset from 1 to 2^32-1 |
| `Subnet6.HostAddrInjective` | panel/awg/subnet6.py:169-182 | so two different clients or networks never get one spelling |
| `Clients.AddSays` | panel/awg/store.py:706-770 | a successful add appends one keyed peer of that name holding the lowest pool address no entry reserves, never the network, server or broadcast one; it fails exactly for a taken name or an exhausted pool |
| `Clients.AddTakesOne` | panel/awg/store.py:706-770 | an add takes exactly one address out of the free ones |
| `Clients.PeerAllowedReserves` | panel/awg/store.py:1683-1743 | the AllowedIPs written for a client reserve its own IPv4 address and no other |
| `Clients.DerivedIp6Distinct` | panel/awg/store.py:1650-1664 | two clients' derived IPv6 addresses differ |
| `Clients.RemoveEqualAt` | panel/awg/store.py:773-783 | removing by equality takes out the entry at that place when no earlier one equals it |
| `Clients.FreeNameIsFree` | panel/awg/store.py:1746-1779 | a drawn name that is accepted belongs to no peer and no file |
| `ClientRuns.RemoveSays` | panel/awg/store.py:773-783 | a remove takes out the client that answers to the name and leaves the others in order |
| `ClientRuns.DropFreesOwn` | panel/awg/store.py:773-783 | removing a client frees its own addresses and nobody else's |
| `ClientRuns.AddKeepsGood` | panel/awg/store.py:706-770 | an add that goes through, from any list fit to be written, leaves one exactly when nobody answers to the name in the list as it is read |
| `ClientRuns.RenameKeepsGood` | panel/awg/store.py:830-847 | a rename that goes through, from any list fit to be written, leaves one exactly when nobody but the client itself answers to the new name in the list as it is read |
| `ClientRuns.SwitchManyKeepsGood` | panel/awg/store.py:880-938 | enabling or disabling many keeps the list fit to be written: names, keys and addresses distinct in it as it is read |
| `ClientRuns.ResetKeepsGood` | panel/awg/store.py:1000-1036 | giving a client an unused key and a preshared key keeps the list fit to be written; that a reset does just this is ClientWrites.ResetWrites |
| `ClientRuns.EnabledSetSays` | panel/awg/conf.py:494-521 | with distinct keys the synced set has exactly one entry per keyed peer without a Disabled marker, with its AllowedIPs and preshared key |
| `ClientRuns.CommitSays` | panel/awg/store.py:1192-1218 | after a commit with the interface up the file says the peers that were meant, their names bare, and the kernel holds exactly the enabled ones; the rest of the file is ClientSection.CommitSection |
| `ClientSection.CommitSection` | panel/awg/store.py:1387-1400 | whatever peers a commit writes, the header and every setting, comment, kept and blank line of the [Interface] section stay as they were, in order, but for blank lines at its end and the three hook keys, which hold the operator's lines and the panel's hooks |
| `ClientSection.EditSection` | panel/awg/store.py:706-1036 | so it is for every mutation from either reading, and the settings the kernel is handed are the ones of the file |
| `ClientSection.EveryRunKeepsSection` | panel/awg/store.py:706-1036 | and over every run: the section, its header and the settings for the kernel are those the run started with, and the hook keys are too or hold what one write makes of them |
| `ClientWrites.AddWrites` | panel/awg/store.py:706-770 | an add goes through exactly when the name is free and the pool is not used up; it puts at the end of the file one peer with the given key, preshared key, name and time, the lowest free address and its IPv6 counterpart, no marker and nothing else, leaves everybody as they were, and an interface that is up holds the client |
| `ClientWrites.RemoveWrites` | panel/awg/store.py:773-783 | a removal takes the client out of the file and its key out of the kernel, and nobody else |
| `ClientWrites.RenameWrites` | panel/awg/store.py:830-847 | a rename changes the name and nothing else, and is refused exactly when there is no such client or another answers to the new name |
| `ClientWrites.SwitchWrites` | panel/awg/store.py:851-877 | a switch changes the marker alone, of a client in the other state; then the kernel holds it with its own settings or does not hold it, and everybody else as before |
| `ClientWrites.ResetWrites` | panel/awg/store.py:1000-1036 | a reset puts the given key and preshared key at the client's place with everything else as it was; the old key is nobody's in file or kernel, and with the interface up and the client switched on the kernel holds the new one with its AllowedIPs |
| `ClientWrites.PowerWrites` | panel/awg/store.py:1221-1261 | a start and a restart leave exactly the switched-on clients loaded, a stop none, and the file is not touched |
| `ClientWrites.BroughtUpSays` | panel/awg/store.py:1221-1261 | a bring-up on its own loads exactly the keys of the file |
| `ClientBulk.RemoveClientsSays` | panel/awg/store.py:786-827 | a bulk removal takes out exactly the clients named, in whatever order, twice or not there |
| `ClientBulk.SetManySays` | panel/awg/store.py:880-938 | a bulk switch sets exactly the markers of the clients named that are in the other state |
| `ClientBulk.RemoveManyWrites` | panel/awg/store.py:786-827 | so in the file and the kernel, from either reading; with nobody to remove nothing is written |
| `ClientBulk.SwitchManyWrites` | panel/awg/store.py:880-938 | and likewise for the bulk switch |
| `ClientRuns.EveryRunKeeps` | panel/awg/store.py:706-938 | after any run of adds, removes, bulk removes, renames, switches, key resets, starts, stops and restarts, each made by the thread that wrote the file last, from its own object, or by any other, from the file, the peers are sound and, while the interface is up, the kernel's peers are exactly the enabled ones; of a call that goes through it asks that nobody else answers to the new name in a fresh reading of the file |
| `ClientReadings.EveryReadIsOne` | panel/awg/store.py:1342-1400 | what any thread is handed in any interleaving is one of the two readings |
| `ClientReadings.EitherReadingServes` | panel/awg/store.py:706-938 | while no name in the object ends in a line feed, every call ends with the same peers in the file, the same interface and the same kernel whether it starts from the object or from the file |
| `ClientReadings.AddBare` | panel/awg/store.py:706-770 | adding under a name that ends in a line feed is, to a fresh reading of the file and to the kernel, adding under the name without it, when the list it starts from has neither |
| `ClientReadings.RenameBare` | panel/awg/store.py:830-847 | and so is renaming |
| `ClientRuns.EditIsExact` | panel/awg/store.py:706-938 | one mutation that goes through, from either reading, keeps everything exactly when the name it gives out, if any, is clear in a fresh reading of the file |
| `ClientNames.AddNamesExact` | panel/awg/store.py:706-770 | after an add that goes through, from either reading, all names are distinct, and everything else is sound, if and only if no client in a fresh reading of the file answers to the name without its final line feed |
| `ClientNames.RenameNamesExact` | panel/awg/store.py:830-847 | and after a rename, if and only if the old and the new name are the same without it or nobody there answers to the new one |
| `ClientNames.AbcTwice` | panel/awg/store.py:706-770 | adding "abc" and then "abc" with a line feed goes through twice, from either reading, and leaves two clients called abc |
| `ClientNames.AbcFromOwnObject` | panel/awg/store.py:1342-1400 | adding "abc" with a line feed and then "abc": another thread is refused, the thread that wrote finds its own object without an abc, goes through and leaves two clients called abc |
| `ClientCapacity.FreeIpsIsExact` | panel/awg/store.py:597-637 | under names and keys that are fresh in the file as it is read, from whichever reading each add starts, exactly free_ips further adds go through and the next is refused because the pool is full |
| `ClientRuns6.NewClientEntries` | panel/awg/store.py:1650-1695 | a new client's AllowedIPs are two entries: its IPv4 address, and the tunnel's IPv6 address at the same offset |
| `ClientRuns6.EveryRunKeeps6` | panel/awg/store.py:706-938 | after any such run on one dual-stack network no IPv6 address of the tunnel is routed to two clients, when every peer's two addresses went together at its start |
| `ClientRuns.BringUpAloneReadmits` | panel/awg/store.py:1221-1261 | bring-up on its own would load a disabled peer: the sync that follows it is what keeps it out |
| `ClientObject.FindPeer` | panel/awg/store.py:1486-1490 | the loop finds the first peer that answers to the name |
| `ClientObject.CollectUsedHosts` | panel/awg/store.py:1727-1743 | the loops collect exactly the addresses some entry reserves |
| `ClientObject.RemoveEntry` | panel/awg/store.py:773-783 | list.remove on the live list is removal of the first equal entry |
| `ClientObject.RemoveNamed` | panel/awg/store.py:786-827 | removing by name one at a time in place leaves what the specification leaves and reports what it removed |
| `ClientObject.SwitchNamed` | panel/awg/store.py:880-938 | switching the peer objects in place, through the name index, is the specified bulk switch, and reports the names that moved a client, in the order asked for |
| `ClientObject.MovedNamesSays` | panel/awg/store.py:880-938 | reported are exactly the names asked for whose client was in the other state before the call, each once |
| `ShaperIds.SupportsSays` | panel/awg/shaper.py:277-295 | every prefix from /17 to /30 can be shaped and a /16 cannot |
| `ShaperIds.MinorSays` | panel/awg/shaper.py:364-381 | class ids fit sixteen bits, clear the reserved ones and differ between clients |
| `ShaperIds.HandleInRange` | panel/awg/shaper.py:384-425 | a filter's bucket is the last octet on the wire in both families, and its node fits twelve bits above the hand-added ones |
| `ShaperIds.OwnerOfHandle` | panel/awg/shaper.py:384-425 | a handle gives its client's address back, on bases that do not end in .0 as well |
| `ShaperIds.HandleIsOwn` | panel/awg/shaper.py:384-425 | so no two clients share a handle |
| `ShaperIds.OffsetBucketMissesTheWire` | panel/awg/shaper.py:384-409 | on a network that does not start at .0, keying on the offset would put every client in a bucket its packets never reach |
| `ShaperTree.BucketIsLastOctet` | panel/awg/shaper.py:195-220 | the byte the hash reads at 12, 16, 20 or 36 plus three is the last octet of the address RFC 791 and RFC 8200 put there |
| `ShaperLimits.AddClass` | panel/awg/shaper.py:777-821 | class replace, leaf delete, leaf add leave the class at the new rate with a fresh leaf, whether or not it had one, and no filter dangles in between |
| `ShaperLimits.DelClass` | panel/awg/shaper.py:863-865 | deleting leaf and class never leaves a filter dangling when nothing names the class |
| `ShaperLimits.NodesAfterAdd` | panel/awg/shaper.py:645-666 | a client's filters are written where its own handles are and change nobody else's |
| `ShaperRuns.CapDownHolds` | panel/awg/shaper.py:594-605 | the class before its filters: no filter names a missing class after any single command, and the tree then holds the new download ceiling |
| `ShaperRuns.DropDownHolds` | panel/awg/shaper.py:835-844 | the filters before the class, likewise |
| `ShaperRuns.CapUpHolds` | panel/awg/shaper.py:607-618 | mark, class, then the mark filter: likewise for upload |
| `ShaperRuns.DropUpHolds` | panel/awg/shaper.py:846-852 | likewise for taking an upload ceiling off |
| `ShaperRuns.EditHolds` | panel/awg/shaper.py:568-627 | one set_limit or clear_limit is accepted if and only if the address is one of the pool's, both rates are from 0 to 100 000 000 000 and an upload ceiling has a WAN; it then leaves exactly the plain map's ceilings, and a refused one leaves everything as it was |
| `ShaperRuns.AcceptedExactly` | panel/awg/shaper.py:954-969 | the numbers of that condition, spelled out: every address from base + 2 to two below the end of the network, every whole rate up to 100 gigabits |
| `ShaperWhole.SetLimitSays` | panel/awg/shaper.py:568-620 | from any tree holding some ceilings an accepted set_limit raises nothing, and the tree then holds them with the client's own replaced as asked, each direction on its own |
| `ShaperWhole.ClearLimitSays` | panel/awg/shaper.py:622-627 | and clear_limit takes both of the client's away |
| `ShaperRuns.EveryRunHolds` | panel/awg/shaper.py:568-627 | any run of edits ends in a tree that is exactly the plain map's, with no checked command refused and, after every single command, every class-selecting filter naming a class that exists |
| `ShaperClassify.ScanSays` | panel/awg/shaper.py:720-775 | scanning the one bucket finds the client's own filter when it has a ceiling and nothing otherwise |
| `ShaperClassify.DownloadIsPlain` | panel/awg/shaper.py:720-775 | in either family a packet to an address gets its client's own class at its own ceiling, and the default class when there is none |
| `ShaperClassify.UploadIsPlain` | panel/awg/shaper.py:823-833 | the mark set on ingress leads to the same client's class on the WAN |
| `ShaperClassify.OneClassPerClient` | panel/awg/shaper.py:568-605 | by the plain map a client's two addresses share one class and one ceiling, and nobody else's address has it |
| `ShaperWhole.OneClassInTree` | panel/awg/shaper.py:568-605 | in the tree itself, of all packets there are exactly those to one of a limited client's own addresses run at its class and ceiling, and exactly those from one of them on the way up |
| `ShaperClassify.RunsClassifyPlainly` | panel/awg/shaper.py:568-627 | after any run of edits every packet, both ways, fares as a plain map from client to ceiling says |
| `ShaperClassify.ReadClasses` | panel/awg/shaper.py:867-921 | the loop keeps the rows that belong to pool addresses |
| `ShaperClassify.LimitsReadBack` | panel/awg/shaper.py:867-921 | reading the kernel's classes back, in whatever order they are listed, gives exactly the ceilings |
| `ShaperAttach.HashStep` | panel/awg/shaper.py:720-775 | a chain whose link is missing gets it, whether or not its table was left behind |
| `ShaperAttach.AttachCompletes` | panel/awg/shaper.py:489-516 | attach() completes the structure from any part of it, raises nothing, takes nothing away, and leaves every class, filter and mark of a client as it was, whether or not they agree with one another |
| `ShaperAttach.AttachRepairs` | panel/awg/shaper.py:489-516 | so where they do agree on some ceilings the tree then holds exactly those |
| `ShaperAttach.BareCarriesNobody` | panel/awg/shaper.py:489-516 | so it also builds the whole structure on a bare interface |
| `ShaperAttach.AttachAgainKeeps` | panel/awg/shaper.py:489-516 | attaching to a whole structure leaves the tree as it was |
| `ShaperObject.Shaper.RunLine` | panel/awg/shaper.py:1078-1103 | one command runs and raises on a checked refusal, or is queued under the same flag inside a batch |
| `ShaperObject.Shaper.Limit` | panel/awg/shaper.py:568-620 | the object issues exactly the specified commands in order, and none when it refuses the request |
| `ShaperObject.Shaper.Clear` | panel/awg/shaper.py:622-627 | likewise for clear_limit |
| `ShaperObject.Shaper.Attach` | panel/awg/shaper.py:489-516 | attach asks after each piece as it goes and issues what is missing |
| `ShaperObject.Shaper.Perform` | panel/awg/shaper.py:979-1019 | nested batched() blocks collect into the outermost one, which sends once at its end or not at all |
| `ShaperObject.Shaper.SendBatch` | panel/awg/shaper.py:1021-1076 | the batch carries on past refusals and is blamed exactly for the checked ones |
| `ShaperBatch.BatchingIsInvisible` | panel/awg/shaper.py:979-1076 | edits in any nesting of blocks send the same commands in the same order and end in the same tree, which holds the ceilings asked for |
| `ShaperBatch.BlocksDoNotMatter` | panel/awg/shaper.py:979-1019 | two programs that differ only in their blocks end in the same state |
| `ShaperBatch.RaisingSendsNothing` | panel/awg/shaper.py:979-1019 | if the outer block raises, the kernel is never told anything |
| `ShaperBatch.BatchSendsAll` | panel/awg/shaper.py:1021-1076 | otherwise everything is sent, and the batch raises exactly when a checked command was refused |
| `ShaperBatch.BringUpHolds` | panel/awg/shaper.py:979-1019 | attach and then every client, in one batch or not, from any part of the structure, ends whole with the ceilings asked for |
| `ShaperWhole.FromBareToPackets` | panel/awg/shaper.py:489-1076 | from a bare interface through attach, the clients of the bring-up and any later edits, in any blocks: nothing raises, and every packet both ways fares as the plain map of all the ceilings asked for says |
| `Traffic.NeverTooMuch` | panel/awg/traffic.py:111-258 | with the epoch readable at every fold, and readings folded in the run and in the order they were taken in, by however many processes, no peer's total exceeds what the kernel counted, whatever restarts, removals and additions happen |
| `Traffic.TotalIsWhatWasRead` | panel/awg/traffic.py:111-258 | and while every fold is safe, in whatever order, the total is the sum over interface runs of the highest reading folded in each |
| `Traffic.FoldIsExact` | panel/awg/traffic.py:111-151 | a fold leaves the account right, total and remembered counters, if and only if it is safe: the reading is of the run it is folded in and not below the one folded last in it, or says just what that one said |
| `Traffic.SafeFoldIsExact` | panel/awg/traffic.py:111-258 | so an unsafe fold is one after which the total is wrong at once or, after some further traffic, at the next reading taken and folded |
| `Traffic.OrderSuffices` | panel/awg/traffic.py:111-258 | readings folded in the run and in the order they were taken in are safe, for a peer whose counter restarts only with the interface and which is in the first fold of each run |
| `Traffic.EndingFoldsSuffice` | panel/awg/traffic.py:205-258 | with the epoch never readable the same equality holds when every run ends in an ending fold and every fold is safe |
| `Traffic.DeltasAddUp` | panel/awg/traffic.py:111-151 | the deltas returned add up to the total, safe or not |
| `Traffic.OldReadingCountsTwice` | panel/awg/traffic.py:111-151 | a reading folded after a later one of the same run counts what it shows twice, with every epoch readable |
| `Traffic.LateReadingCountsTwice` | panel/awg/traffic.py:242-257 | a reading of one run folded in the next is counted again |
| `TrafficRekey.TotalFollowsTheClient` | panel/awg/store.py:1813-1829 | however often its keys are reset, a client's total never exceeds what was counted for it under all of its keys when readings are folded in the run and order they were taken in, and is the sum of the highest readings of every key in every run when every fold is safe |
| `TrafficRekey.UnzeroedRowLoses` | panel/awg/store.py:1813-1829 | the raw counters of the moved row have to be zeroed: kept, they take the new key's traffic off what the old key had counted |
| `Traffic.PatchyEpochCountsTwice` | panel/awg/traffic.py:231-257 | an epoch readable in one fold and not in another counts a run twice |
| `Traffic.FirstEpochIsNoRestart` | panel/awg/traffic.py:231-257 | an epoch readable for the first time is no restart: the fold adds what the counters grew by |
| `Traffic.EndingTooSoonCountsTwice` | panel/awg/traffic.py:245-257 | without an epoch, an ending fold on an interface that stays up counts it twice |
| `Traffic.UnseenRestartLoses` | panel/awg/traffic.py:133-141 | without an epoch, a crash loses what the run before it had counted |
| `TrafficObject.Database.Accumulate` | panel/awg/traffic.py:111-151 | updating the row objects and the dictionary in place is the specified fold, and the deltas are its |
| `TrafficObject.Database.Sync` | panel/awg/traffic.py:205-258 | the read-modify-write with its zeroing loop is the specified sync |
| `EnvFile.FourTimesIsOnce` | panel/awg/clientsenv.py:147-152 | replacing four characters one after the other escapes each character exactly once |
| `EnvFile.ScanQuote` | panel/awg/clientsenv.py:147-243 | scanning a quoted value gives the value back, whatever characters it has |
| `EnvWords.WordReads` | panel/awg/clientsenv.py:205-243 | a word made of plain characters, escaped ones, single-quoted and double-quoted parts is read as what those say, up to a blank or the end |
| `EnvWords.WordIs` | panel/awg/clientsenv.py:205-243 | and whatever is read is such a word |
| `EnvWords.SingleQuoted` | panel/awg/clientsenv.py:205-243 | so what stands between single quotes is taken as it is |
| `EnvLines.AssignmentReads` | panel/awg/clientsenv.py:171-203 | every line of blanks, an optional export, a name, an equals sign, a word and nothing after it but a comment is read as that name and what the word says |
| `EnvLines.AssignmentIs` | panel/awg/clientsenv.py:171-203 | and no other line is read as an assignment |
| `EnvFile.MatchPrefix` | panel/awg/clientsenv.py:75-76 | what is assigned to is decided by the line up to and with its "=" |
| `EnvFile.RenderSays` | panel/awg/clientsenv.py:246-252 | a rewritten line reads as its key and the new value, keeps its prefix and comment, and the comment starts where it did or one space after the value |
| `EnvUpdate.ReadOverClean` | panel/awg/clientsenv.py:95-108 | no reading ever holds a character that ends a line, in a key or a value |
| `EnvTheorems.UpdateReads` | panel/awg/clientsenv.py:95-144 | the same two-way statement for any values standing for the keys a file does not set |
| `EnvUpdate.WrittenLines` | panel/awg/clientsenv.py:137-144 | what is written is read back line for line |
| `EnvTheorems.UpdateRoundTrip` | panel/awg/clientsenv.py:95-144 | a reading after update_env(changes) is the old reading overwritten by the changes if and only if every key and value is free of the characters splitlines() breaks at; the code refuses only line feeds and carriage returns |
| `EnvTheorems.UpdateFrame` | panel/awg/clientsenv.py:111-144 | every line that assigns no changed key is unchanged and in its place; one that does keeps key, prefix and comment |
| `EnvTheorems.VerticalTabIsLost` | panel/awg/clientsenv.py:121-124 | a value with a vertical tab is accepted and does not come back |
| `EnvTheorems.RefusedExactly` | panel/awg/clientsenv.py:111-129 | update_env refuses exactly when some key is no shell name, one line feed at its end apart, or some value holds a line feed or a carriage return, and does nothing at all for no changes |
| `EnvObject.ScanWordLoop` | panel/awg/clientsenv.py:205-243 | the index-moving loops compute the specified word |
| `EnvObject.ReadEnvLoop` | panel/awg/clientsenv.py:95-108 | the last assignment of a key wins |
| `EnvObject.UpdateEnv` | panel/awg/clientsenv.py:111-144 | overwriting line objects in a loop with a seen set writes the specified text |
| `Params.ShowRangeReads` | panel/awg/validate.py:2258-2265 | a range that was written is read back as its two ends |
| `ValidationPromise.AcceptedIsPromised` | panel/awg/validate.py:1362-1400 | validate_params answers with nothing if and only if every parameter given says a number, range, key, switch or packet template its own bounds allow, or nothing where it may, the sizes, headers and timers are right together for every draw, and nothing is asked of the module that it lacks |
| `ValidationPromise.CheckIsGood` | panel/awg/validate.py:2186-2274 | the test of one value passes exactly the texts that may stand for the parameter: digits within its bounds, two of them in order for a range, 44 base64 or 64 hexadecimal characters for a key, on, off or digits for a switch |
| `ValidationPromise.OffIs` | panel/awg/validate.py:2065-2117 | a value writes no line exactly when it is empty, a switch that says off, or a zero where zero is off |
| `ValidationPromise.FeaturesAre` | panel/awg/validate.py:2808-2826 | what a parameter needs of the module, parameter by parameter |
| `ImitationGrammar.AcceptedIsTemplate` | panel/awg/validate.py:2388-2448 | a packet is accepted exactly when it is tags with blanks around them, one at least, each of a kind the module knows with the argument it takes, and no more than 1280 bytes in all |
| `Timers.VerdictIsExact` | panel/awg/validate.py:2698-2805 | with all four timers set the check passes if and only if every possible draw has rekey + keepalive + retry below reject |
| `Timers.PassingKeepsTheResponderWaiting` | panel/awg/validate.py:2748-2780 | and then the responder's subtraction is never negative and its threshold is after every rekey moment |
| `Timers.EarlierTestsOnlyExplain` | panel/awg/validate.py:2735-2805 | the first three tests refuse nothing the last would accept, and the last one's missing seconds are exact |
| `Timers.TwoTimersAreExact` | panel/awg/validate.py:2738-2751 | with only the two timers always compared, passing is again what every draw needs |
| `ValidationMeaning.AcceptedMeans` | panel/awg/validate.py:1362-1400 | no message of one check hides another's: the answer is empty exactly when each check on its own finds nothing; what that means is ValidationPromise.AcceptedIsPromised |
| `ValidationMeaning.HeadersSay` | panel/awg/validate.py:2661-2695 | the header check passes exactly when the headers given are set together and no two ranges share a value |
| `ValidationMeaning.NonceSays` | panel/awg/validate.py:2618-2658 | the key check passes exactly when S1 to S4 can all carry the nonce |
| `ValidationMeaning.PaddingSays` | panel/awg/validate.py:2479-2608 | the padding check passes exactly when S4 and the MTU fit the budget together |
| `ValidationLoop.ValidateParams` | panel/awg/validate.py:1362-1400 | the loops that fill the dictionary give the specified messages, none exactly when ValidationPromise.Promised holds |
| `ValidationLoop.CheckHeadersLoop` | panel/awg/validate.py:2661-2695 | likewise for the nested header loops |
| `Imitation.ParseLoop` | panel/awg/validate.py:2388-2448 | the position-moving parser is the specified one |
| `Imitation.RenderedIsAccepted` | panel/awg/validate.py:2388-2448 | a rendered template that fits is accepted, with its own tags and a size equal to the bytes every sending of it has |
| `Decoys.InitialIsTrue` | panel/awg/validate.py:2020-2034 | every sending of a decoy Initial reads as one by section 17.2.2 of RFC 9000: the Length varint counts exactly the bytes after it, in at least 1200 bytes |
| `Decoys.StunRequestIsTrue` | panel/awg/validate.py:1984-1996 | every binding request's length field and attributes are true by sections 5 and 14 of RFC 8489 |
| `Decoys.StunResponseIsTrue` | panel/awg/validate.py:1999-2006 | likewise for the response |
| `Decoys.NameReads` | panel/awg/validate.py:1709-1720 | the labels of an encoded name come back one by one and end where section 3.1 of RFC 1035 says |
| `Decoys.QueryIsTrue` | panel/awg/validate.py:1963-1972 | every query is one question and one OPT record to the last byte |
| `Decoys.AnswerIsTrue` | panel/awg/validate.py:1975-1981 | every answer is one question and one address record to the last byte |
| `Generator.ProfilesAreUsable` | panel/awg/validate.py:318-442 | every profile, an unknown name included, keeps the bounds a draw needs |
| `Generation.PaddingSizes` | panel/awg/validate.py:1795-1848 | whatever is drawn, S1 + 56 differs from S2, and S4 fits the MTU and never falls under the nonce while the MTU leaves room for it |
| `Generation.HeaderRanges` | panel/awg/validate.py:1866-1891 | four narrow ranges above the reserved values, disjoint after any shuffle |
| `Generation.ImitationSet` | panel/awg/validate.py:1894-1917 | between one and five packets, all of one protocol |
| `Generation.FamilyDns` | panel/awg/validate.py:1945-1957 | each answer follows a question for the same name |
| `Generation.Randomize` | panel/awg/validate.py:1560-1601 | every outcome of the random source gives a set within the profile's bands, written as text |
| `Generation.RandomizeAdvanced` | panel/awg/validate.py:1604-1706 | likewise for the advanced group, whose reject range clears the tops of the other three |
| `GenerationValid.DecoysAreTruthful` | panel/awg/validate.py:1920-2044 | every sending of every decoy that can be drawn tells the truth about its own lengths |
| `GenerationValid.Base64Shape` | panel/awg/validate.py:1726-1733 | a 32-byte key is spelled in 44 characters ending in one "=" |
| `Base64Key.Decodes` | panel/awg/validate.py:1726-1733 | and decoding it by section 4 of RFC 4648 gives the key's bytes back |
| `GenerationValid.EveryDrawIsAccepted` | panel/awg/validate.py:1560-1706 | for every profile name, every draw and every MTU from 1280 to 1408 the validator has nothing to say when no feature is missing |
| `GenerationValid.EveryDrawIsPromised` | panel/awg/validate.py:1560-1706 | so the settings drawn keep every promise of ValidationPromise |
| `GenerationValid.Reconfigure` | panel/awg/validate.py:1560-1706 | the same, as the two generators run |
| `Release.NewerIsStrict` | panel/awg/release.py:102-113 | is_newer is irreflexive, asymmetric and transitive, and on readable tags so is being neither newer: a strict weak order |
| `Release.NewerIsPrecedence` | panel/awg/release.py:68-113 | on readable tags of at most four numeric parts it is precedence by section 11 of Semantic Versioning 2.0.0, both ways |
| `ReleaseTags.TagReads` | panel/awg/release.py:49-99 | every well-spelled tag is read, and says each numeric part as a number, and of each identifier of its pre-release the number if it is digits and otherwise the text |
| `ReleaseTags.ReadIsTag` | panel/awg/release.py:49-57 | and nothing else is read |
| `Release.FifthPartIsDropped` | panel/awg/release.py:85-86 | a fifth numeric part never makes a tag newer |
| `Release.BuildIsIgnored` | panel/awg/release.py:52-56 | tags that differ only in build metadata are the same version |
| `Release.PickNewest` | panel/awg/release.py:166-188 | the entry picked from a list is stable, is the first of the highest, no stable entry is newer, and it is readable if any stable one is |
| `ClientConf.ParseClientConf` | panel/awg/conf.py:472-491 | the dictionary built in the loop holds the first occurrence of each key |
| `ClientConf.FileReads` | panel/awg/store.py:1866-1899 | a key written into a client config reads back as its value, cut at "#" and stripped |
| `Resync.ResyncAll` | panel/awg/store.py:1039-1118 | the loop with its counter writes what the specification writes |
| `ResyncIdempotent.EmittedValues` | panel/awg/store.py:1835-1899 | an emitted config gives its keys, DNS and AllowedIPs back |
| `ResyncIdempotent.ObfuscationIsCopied` | panel/awg/store.py:1879-1888 | it carries each obfuscation setting of the server that is set, with the server's value, and no line for one that is not |
| `ResyncWrites.MirroredAre` | panel/awg/validate.py:132-174 | the settings copied are all obfuscation settings but the server's own switch |
| `ResyncWrites.FileSays` | panel/awg/store.py:1071-1112 | a file whose keys are not the peer's is left as it is; any other keeps its keys and says the server's key, endpoint, MTU and keepalive, the client's address, and the DNS and routes that are meant: the request's, the file's or the server's, moved and widened |
| `ResyncWrites.LoopWrites` | panel/awg/store.py:1071-1112 | each named peer's file is what its turn made of it, every other file is as it was, and none is added or removed |
| `ResyncWrites.RefusedExactly` | panel/awg/store.py:1056-1118 | a resync is refused before it writes anything when the override would break a line, and otherwise exactly when some client's own turn is |
| `ResyncWrites.BackfillSays` | panel/awg/store.py:1121-1145 | a client of the pool without IPv6 is routed what a client added on its address is; a peer that has IPv6, and every peer of a tunnel that has none, stays as it is |
| `ResyncWrites.FurtherRoutesGo` | panel/awg/store.py:1143 | the backfill replaces the whole list: further routes such a peer had are not in it afterwards |
| `ResyncWrites.FirstV4Says` | panel/awg/store.py:1524-1543 | a peer's address is that of its first entry that is not IPv6 |
| `ResyncIdempotent.TextIsStable` | panel/awg/store.py:1071-1112 | a later request with the same override finds a client's new file as it would write it if and only if the route list in it is where the later request's move would leave it |
| `ResyncIdempotent.BackfillTwice` | panel/awg/store.py:1121-1145 | a second backfill changes no peer |
| `ResyncIdempotent.ResyncIsIdempotent` | panel/awg/store.py:1039-1118 | the same request made again, its move included, from the object the first one wrote or from the config printed and read again, backfills no peer and writes no file |
| `Resync.AddedWithIp6` | panel/awg/store.py:1650-1664 | the IPv6 address a client's file is rebuilt with is the one the client was given when it was added |

## Left out

- The lock file: one owner and a depth per thread stand for it; waiting, time-outs and the descriptor are not modelled.
- Case folding is the ASCII part of `str.casefold`, and `int()` reads ASCII digits with single underscores only.
- Regular expressions are written out as matchers by hand; non-ASCII digits that `\d` would accept are not modelled.
- Parsing of networks from text (`subnet.parse`, `subnet6.parse`) and endpoint detection: a network and an endpoint are parameters.
- Whether a route list covers all of IPv4 (`ipaddress.collapse_addresses`) is a parameter of the resync.
- Key derivation is a parameter, and keys' own alphabet is not used.
- Premise of the shared-file results: distinct versions of the file have distinct stamps, nothing writes between a write and its stat, a thread edits no object it has written, and values set carry no "#", line feed or carriage return (on reading, the source takes a carriage return for a line feed; the model's file is the text after that).
- Equal AllowedIPs are compared stripped, because a printed value loses blanks at its ends.
- Client config files, traffic rows (but for the row a key reset moves) and change announcements are not part of the client operations; `update_client` and `save_server` are not modelled.
- The extra settings and comments of a peer are values inside the peer object, so aliasing between two such lists is not captured.
- Whether tc is there at all (`available()`) is taken for granted, and tc is an abstract tree: one refusal per failed command, u32 tables shared by a parent, classes deletable at any time; error texts, time-outs, `limits()` text parsing and rate rounding are not modelled.
- A link filter of somebody else's on the same chain, and a WAN root that an operator built by hand, are not modelled; `attached()` and `detach()` are left out.
- An address given to the shaper is a number; text that is not an address and rates that are not integers are refused before anything the model covers.
- traffic.db as text: rows are a map, and the epoch files are two strings. A reading taken before a key reset and folded after it brings the old key's row back; the results about a client's total speak of the row under its present key.
- validate.py's checks of addresses, IP lists, host names and hook text, its warnings and its messages' wording are left out; a message is one of a fixed set of faults.
- The random source's distribution is not modelled, only the values it may return.
- clients.env values that are not Unicode scalar text, and a file that is not UTF-8, are not modelled.
- Release feeds are lists of entries already decoded; HTTP and the reading of assets are left out.
- ClientConf files are text as read, with line endings already turned into line feeds; values of the server are taken free of carriage returns.
- Resyncing starts from a config whose names do not end in a line feed, and a move from an IPv4 network, as the tunnel's own is.
- Wallet codes, the API, sessions, the web front end, firewall, ports and service control are not part of this model.

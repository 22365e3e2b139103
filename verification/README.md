# SmartDNS core, verified

A Dafny model of the parts of SmartDNS that carry hard state or a hard transformation, with proofs about every
input, every run or every interleaving of them.

| component | modules |
|---|---|
| Names on the wire: reading, writing with the suffix dictionary, compression | `NameDecode`, `NameEncode`, `NameCircle`, `NameRoundTrip`, `NameSelf`, `NameTheorems`, `NameWriter` |
| Whole messages: header, questions, three sections, EDNS | `Message`, `Layout`, `MessageLayout`, `MessageTheorems` |
| The in-place patch of a cached answer | `Update`, `UpdateNames`, `UpdateTheorems` |
| The packet arena and the padded SVCB store | `Arena`, `Svcb` |
| The log ring buffer | `Ring` |
| Domain rules: tree keys, copy-on-write leaves, the pool, groups | `SuffixIndex`, `RuleSpec`, `RuleCounts`, `RuleSteps`, `RuleFrames`, `RuleStore` |
| The DNS cache | `CacheSteps`, `Cache`, `CacheRuns` |
| Shared helpers | `Bytes`, `Sets` |
| The life of an upstream query, and closing a connection in use | `Lifecycle`, `CloseGuard` |

How the pieces are set up:

- Loops and objects of the source are methods and classes here. Each is proved equal to a specification function, and
  the theorems are about those functions. `Expand`, `EncodeLoop` and `UpdateLoop` specify the three name loops.
- Names in a buffer are described by `NameAt`, with a map that gives every byte its role (no name, length or pointer,
  label text). Two names may share bytes through pointers; the map is what makes later writes provably harmless.
- Pointers between heap objects are ids into maps (`RuleStore.Store`, `Cache.Store`), so that sharing, counting and
  freeing can be stated. References held by callers or by running code are ghost multisets, and the reference counters
  are exact after every elementary step, also in the middle of an operation.
- The timer wheel, the hash tables and the ART tree are taken by their contracts: a timer reports whether it was
  pending, a table finds what was put in, a walk visits the keys that are prefixes of the query key.

Properties that turned out false of the code, with the exact condition:

- With exactly two bytes left in the buffer `_dns_encode_domain` writes a non-empty name as the root name and reports
  success (`NameTheorems.CutCall`).
- A name can be written as a pointer to itself: the dictionary takes up each suffix before the name is complete, and a
  later suffix with the same hash hits it. With an empty dictionary and over zero bytes this happens to every name that
  begins with the label "1ltxxpe", whose hash with the dot is 0, and goes on with labels whose hash is not 0, such as
  "1ltxxpe.com" (`NameTheorems.CircleExample`). What was written can never be read (`NameTheorems.CircleWritten`).
- A successfully written name comes back if and only if the call is not cut so, the first hit in the dictionary, as it
  grows by the name's own suffixes, is an older entry and a true one, and the text fits the reader
  (`NameTheorems.RoundTripIff`). A hit of the name itself counts only if that suffix was registered and reads to an end over
  the bytes already in the buffer. There is no hypothesis on hashes, and older entries may lead into circles: the same
  holds for each name of any run of calls, at the end of the run (`NameTheorems.RunRoundTripIff`).
- A message whose name suffixes have different hashes comes back exactly when no target is cut by the end of the buffer
  (`MessageTheorems.MessageRoundTrip`), which needs a message one byte short of its buffer
  (`MessageTheorems.UnlessBufferIsFull`).
- The dictionary compares hashes only: "Aa" and "BB" have the same hash, and the second of them is written as a pointer to
  the first (`NameTheorems.CollisionExample`).
- A log line cut to the maximal line size can fill the ring exactly; the next snapshot then loses the newest bytes.
  A snapshot keeps the ring sound if and only if the ring is not exactly full (`Ring.SnapshotKeeps`,
  `Ring.ExactlyFullLoses`). An exactly full ring is within reach if and only if two maximal lines fit into the buffer, as
  with the default sizes (`Ring.ExactlyFullReachable`); shorter lines never get there (`Ring.FifoForShortLines`).
- After UPDATE or RETRY on a cache timer that the callback itself had started again, the fired timer's reference is lost;
  and a timer that was not started again stays stopped, so RETRY does not try again (`Cache.Store.Expired`). With nothing
  held by callers, exactly the entries with a lost reference stay (`Cache.NothingHeld`).
- A query whose 33 random ids were all taken is accepted and put in no table. Four timeouts end a query in every run if and
  only if one of the 33 ids was unused (`Lifecycle.EndsIffHashed`); a query in no table ends exactly with its fourth failed
  stream, so never without streams (`Lifecycle.UnhashedEnds`). Hashed queries end exactly once (`Lifecycle.EveryQueryEnds`).
- The "send count is invalid" branches are within reach (`Lifecycle.InvalidReachable`). Whatever server answers on whatever
  stream, they come within reach if and only if some event uses up the last outstanding send of a query that stays in the
  tables: its stream fails without a result, with retries left, and the retry reaches no server; or, for a query without
  callback, it is answered (`Lifecycle.InvalidIffStarved`).
- Copy on write isolates groups for flags and single-valued rules (`RuleStore.Store.Run`), and not for ipset and nftset
  rules, which are extended in place: after a group has inherited such a rule and added to it, its parent shows the longer
  list too (`RuleStore.Store.ExtendInherited`). An extension leaves every other lookup alone if and only if no other lookup
  reaches the same rule object (`RuleFrames.ExtendedIff`), which the counters tell (`RuleFrames.CountersAlone`).
- A rule written `*-.d` matches no query at all, since its two marks exclude each other (`SuffixIndex.AppliesIffMeans`).

## Model

| member | source | states |
|---|---|---|
| `NameDecode.DecodeName` | src/dns.c:172-260 | the loop over arrays: success exactly when the name expands, the output is that text with its terminator, the cursor is where the name ends, nothing is written behind the given size; it terminates on every input |
| `NameDecode.AppendLabel` | src/dns.c:222-252 | the label branch with its bounded copy: the output grows by the label, or the next check gives up |
| `NameDecode.DecoderMeetsRfc` | src/dns.c:172-260 | on arbitrary bytes a text is decoded if and only if some walk by section 4.1.4 of RFC 1035 spells it, with at most 32 pointers in a row and a text that fits |
| `NameDecode.CursorAdvances` | src/dns.c:172-260 | a successful decode moves the cursor strictly forward and not past the packet |
| `NameEncode.NameDecodes` | src/dns.c:172-260 | a name laid out in a buffer decodes to its labels joined by dots exactly when they fit, to an error otherwise |
| `NameEncode.NameKept` | src/dns.c:330-388 | writes that keep the bytes of names keep every name, also those reached through pointers |
| `NameWriter.Context.Hash` | src/dns.c:267-274 | the hash loop in 32-bit arithmetic |
| `NameWriter.Context.DomainOffset` | src/dns.c:276-328 | dictionary search and registration over the fields of the context |
| `NameWriter.Context.EncodeDomain` | src/dns.c:330-388 | the encoder loop in place equals its specification, on every buffer and text |
| `NameTheorems.EncodeSpells` | src/dns.c:267-388 | a successful call that is not cut and does not hit the name itself spells the name at the old cursor with pointers only to earlier label starts, returns the bytes written, changes nothing before it and registers only true entries |
| `NameTheorems.RoundTripIff` | src/dns.c:267-388 | exactly when a written name can be read back, for every name, every buffer content and every dictionary that earlier calls can have left |
| `NameTheorems.CircleWritten` | src/dns.c:294-388 | a successful call that hits a suffix of the name it is writing leaves a circle that can never be read, reports the bytes written and keeps every name before it |
| `NameTheorems.CircleExample` | src/dns.c:267-388 | every name behind the label "1ltxxpe" is written in ten bytes as a pointer to itself, while all other conditions hold |
| `NameTheorems.CutCall` | src/dns.c:330-388 | two bytes left: the root name is written and one byte reported |
| `NameTheorems.CompressionRoundTrip` | src/dns.c:267-388 | after any run of successful calls on one buffer and dictionary every name decodes where it was written, whatever was written later |
| `NameTheorems.RunRoundTripIff` | src/dns.c:267-388 | in any run of calls with any names, what was written for name j reads at the end as right after its call, and is the name exactly under the condition of that one call |
| `NameTheorems.CollisionExample` | src/dns.c:311-324 | two different names with one hash: the second call succeeds and does not write its name |
| `MessageTheorems.HeadRoundTrip` | src/dns.c:1593-1683 | all flag bits, the id and the four counts of a header are read back |
| `Layout.DataReads` | src/dns.c:1843-1948 | laid-out A, AAAA, CNAME, PTR, SOA and SRV data is read back exactly when its names fit the reader |
| `Layout.ItemReads` | src/dns.c:2537-2721 | a laid-out record or OPT record is read back exactly when it is readable |
| `MessageLayout.ItemWritten` | src/dns.c:2755-2801 | a written record is laid out, its length field is right, and the dictionary stays true |
| `MessageTheorems.EncodeLaysOut` | src/dns.c:2854-2909 | an encoded message is header, questions and sections laid out one behind the other |
| `MessageTheorems.MessageReads` | src/dns.c:2803-2852 | a laid-out message decodes to its packet exactly when every part is readable |
| `MessageTheorems.MessageRoundTrip` | src/dns.c:2972-3038 | encode then decode gives the same header bits, questions, records of each section in order and EDNS options; readable packets exactly; a cut target is the only exception, and always one |
| `MessageTheorems.UnlessBufferIsFull` | src/dns.c:3008-3038 | no exception unless the message ends one byte before the end of the buffer |
| `Update.UpdateDomain` | src/dns.c:3040-3105 | the loop that rewrites a name in place equals its specification |
| `UpdateNames.LoopRecases` | src/dns.c:3040-3105 | on a name equal to the query up to case the loop succeeds and changes letters of labels in case only |
| `UpdateNames.LoopSpells` | src/dns.c:3040-3105 | afterwards the name is spelled exactly as the query, through pointers as well |
| `UpdateNames.LoopKeepsTails` | src/dns.c:3040-3105 | names already spelled as a tail of the query stay so, where they share labels |
| `UpdateTheorems.OwnerUpdated` | src/dns.c:3107-3131 | one owner: updated exactly as the query if it matches, untouched otherwise |
| `UpdateTheorems.QuestionUpdated` | src/dns.c:3133-3154 | one question: type and class kept, the name changed in case at most |
| `UpdateTheorems.ItemUpdated` | src/dns.c:3156-3199 | one record: the TTL replaced unless OPT or negative, everything else kept up to case of names |
| `UpdateTheorems.MessageUpdated` | src/dns.c:3201-3297 | a laid-out message is patched successfully and stays laid out |
| `UpdateTheorems.MessageFails` | src/dns.c:3201-3297 | a laid-out message with a part that cannot be read is not patched successfully |
| `UpdateTheorems.PatchRefines` | src/dns.c:3040-3297 | the in-place patch of an encoded message succeeds if and only if the names and TTLs on its way can be read; on every message that decodes it is decode, modify, encode: only id, TTLs and case differ, and every question and owner matching the query is spelled exactly as the query |
| `Arena.Packet.constructor` | src/dns.c:2911-2940 | five empty sections |
| `Arena.Packet.AddEnd` | src/dns.c:472-533 | the record is linked behind the last one of its section, and no other section changes |
| `Arena.Packet.Add` | src/dns.c:452-533 | adding succeeds exactly when head and bytes fit, so the last check rejects nothing the bounded writes admitted; the section gets the record at its end, every earlier record is unchanged; records are disjoint and inside the arena |
| `Arena.Packet.Walk` | src/dns.c:391-440 | walking a section visits exactly its records, in insertion order, as many as its count |
| `Svcb.Nested.Memcpy` | src/dns.c:655-680 | the aligned copy with its padding byte, in place |
| `Svcb.Nested.AddRaw` | src/dns.c:1301-1319 | key, length and value through three such copies |
| `Svcb.AddedIs` | src/dns.c:1301-1319 | a parameter is stored exactly when its padded block fits; an empty value is stored although the call reports failure |
| `Svcb.NoAlpnIs` | src/dns.c:1368-1385 | no-default-alpn is stored as a parameter with an empty value |
| `Svcb.AddsOkFit` | src/dns.c:1301-1385 | calls that all report success leave exactly the blocks of their parameters, one behind the other |
| `Svcb.StoreIterates` | src/dns.c:1557-1560 | iterating the padded store gives the parameters in order, whatever the parity of place and values |
| `Svcb.RecordReads` | src/dns.c:1255-1287 | priority, target and parameters come back as added |
| `Svcb.WalkParams` | src/dns.c:728-744 | the iteration loop equals its specification on any bytes |
| `Svcb.ReadParams` | src/dns.c:2474-2508 | the decoding loop equals its specification on any bytes |
| `Svcb.SvcbRoundTrip` | src/dns.c:2364-2514 | whenever the data is encoded it decodes to the same priority, target and parameters; the target is never cut by the end of the buffer |
| `Svcb.SvcbEndToEnd` | src/dns.c:2364-2514 | store, wire and second store all give the same priority, target and parameters |
| `Ring.Log.constructor` | src/tlog.c:1983-1987 | an empty ring |
| `Ring.Log.Vprintf` | src/tlog.c:629-694 | the producer's critical section: the line stored and the end moved or wrapped, or the line counted as dropped |
| `Ring.Log.Take` | src/tlog.c:1757-1782 | the consumer's snapshot under the lock |
| `Ring.Log.WriteBuff` | src/tlog.c:1606-1613 | what is written out is what the snapshot covers |
| `Ring.Log.Free` | src/tlog.c:1787-1793 | the snapshot is freed by moving the start |
| `Ring.Log.Interleave` | src/tlog.c:629-1793 | any interleaving of producers and consumer on the object: output followed by what is owed is the accepted lines in order |
| `Ring.AppendSparesSnapshot` | src/tlog.c:629-694 | no append touches the bytes of an outstanding snapshot, also when the ring wraps meanwhile |
| `Ring.SnapshotKeeps` | src/tlog.c:1757-1782 | a snapshot covers all that is held if and only if the ring is not exactly full |
| `Ring.RunIsFifo` | src/tlog.c:1757-1793 | for every interleaving, output followed by what is owed is the accepted lines in order |
| `Ring.FifoForShortLines` | src/tlog.c:629-694 | lines shorter than the maximal size lose nothing in any interleaving |
| `Ring.ExactlyFullLoses` | src/tlog.c:1757-1793 | from an exactly full ring the newest bytes are lost, whatever they are |
| `Ring.ExactlyFullReachable` | src/tlog.c:608-694 | for all sizes: an exactly full ring is within reach of an open one if and only if two lines of the maximal size fit into the buffer |
| `SuffixIndex.ReverseString` | src/utils/misc.c:111-135 | the text reversed and lower-cased in place |
| `SuffixIndex.SetupDomainKey` | src/dns_conf/domain_rule.c:524-590 | the key buffer, its length and the two marks, for every configured domain |
| `SuffixIndex.SuffixPrefix` | src/dns_conf/domain_rule.c:524-590 | for plain domains one key is a prefix of another exactly when the domain is the other or above it; the root's key is a prefix of all |
| `SuffixIndex.AppliesIffMeans` | src/dns_server/rules.c:102-209 | which queries a rule in any of its written forms applies to, said of the texts alone |
| `RuleFrames.CapacityFits` | src/dns_conf/domain_rule.c:36-58 | growing gives room for the type within 17 slots, in 8-bit arithmetic |
| `RuleFrames.ViewSet` | src/dns_conf/domain_rule.c:80-116 | a change to a leaf no other slot sees changes lookups in that slot only, and nothing in the pool |
| `RuleStore.Store.EnsureCapacity` | src/dns_conf/domain_rule.c:80-116 | a leaf with one reference and room, either the same or a copy with the same entries |
| `RuleStore.Store.Intern` | src/dns_conf/domain_rule.c:127-155 | the leaf returned says the same; at most one empty bucket is filled |
| `RuleStore.Store.FreeLeaf` | src/dns_conf/domain_rule.c:604-627 | one reference less; the leaf is freed with its rules' references exactly when it was the last |
| `RuleStore.Store.FlagSetAt` | src/dns_conf/domain_rule.c:699-759 | on lookups: the flags entry of one slot is updated, all others unchanged |
| `RuleStore.Store.AddAt` | src/dns_conf/domain_rule.c:819-923 | on lookups: one entry with the payload of the rule and this domain's own marks, though the rule object is shared by many domains; a list-valued rule that is there is extended for exactly the lookups that reach it |
| `RuleFrames.ExtendedIff` | src/dns_conf/domain_rule.c:879-893 | extending a rule in place acts as on the plain map if and only if no other lookup reaches the rule object |
| `RuleFrames.CountersAlone` | src/dns_conf/domain_rule.c:92-116 | a rule with one user in a leaf with one reference is reached by one lookup only |
| `RuleStore.Store.ExtendInherited` | src/dns_conf/domain_rule.c:879-893 | in every store, adding to an inherited list-valued rule changes the lookups of the parent too |
| `RuleStore.Store.RemoveAt` | src/dns_conf/domain_rule.c:771-817 | on lookups: one entry gone; -1 exactly when the domain has no leaf |
| `RuleStore.Store.DeleteAt` | src/dns_conf/domain_rule.c:640-670 | on lookups: all entries of the domain gone |
| `RuleStore.Store.NewHandle` | src/dns_conf/domain_rule.c:389-415 | a new rule held by its caller |
| `RuleStore.Store.DropHandle` | src/dns_conf/domain_rule.c:465-470 | giving a rule up changes no lookup |
| `RuleStore.Store.Inherit` | src/dns_conf/dns_conf_group.c:189-243 | the child shows what the parent shows, holding the very same leaves |
| `RuleStore.Store.RemoveGroup` | src/dns_conf/dns_conf_group.c:419-430 | the group's entries are gone, all others unchanged |
| `RuleStore.Store.PoolClear` | src/dns_conf/domain_rule.c:157-163 | the pool is empty and lookups are unchanged |
| `RuleStore.Store.Teardown` | src/dns_conf/dns_conf_group.c:419-444 | after all groups and the pool every leaf ever allocated has been freed exactly once, and the rules left are those callers hold |
| `RuleStore.Store.Do` | src/dns_conf/domain_rule.c:673-923 | each call acts on lookups, and returns, as on a plain map; the pool's leaves and callers' rules keep their contents |
| `RuleStore.Store.Run` | src/dns_conf/domain_rule.c:673-923 | so does every sequence of calls, and every counter is exact; groups no call works on show what they showed, and a group that inherited shows what its parent showed at that moment |
| `CacheSteps.DropEntryKeeps` | src/dns_cache.c:106-123 | when an entry's counter reaches zero it is off the list, its timer is not pending, and both totals stay right |
| `Cache.Store.constructor` | src/dns_cache.c:62-99 | an empty cache with its limits |
| `Cache.Store.Release` | src/dns_cache.c:133-149 | one reference less; the entry is freed with its data reference exactly when it was the last |
| `Cache.Store.Remove` | src/dns_cache.c:151-168 | the entry leaves the list, its timer stops, both references go |
| `Cache.Store.Lookup` | src/dns_cache.c:236-308 | the one record with the key, equal up to case, with a reference for the caller; none if there is none |
| `Cache.OnlyOne` | src/dns_cache.c:236-290 | at most one linked entry per key |
| `Cache.Store.Evict` | src/dns_cache.c:458-478 | the least recent entries go, one at a time and at most 33; before each of them the new entry did not fit, and afterwards it fits unless 33 went or none is left; the list ends up below the limit even while callers hold removed entries |
| `Cache.Store.Insert` | src/dns_cache.c:420-533 | the record of the key replaced and made most recent, the least recent evicted exactly as long as the new one does not fit; the caller's data reference consumed exactly on success |
| `Cache.Store.Replace` | src/dns_cache.c:310-376 | the record updated and made most recent, or -1 and nothing changed; the data reference consumed exactly on 0 |
| `Cache.Store.UpdateTimer` | src/dns_cache.c:535-568 | the timer of the record is pending afterwards, and nothing else changes |
| `Cache.Store.Update` | src/dns_cache.c:670-687 | a used record becomes most recent with its hit count bounded, unless it was removed |
| `Cache.Store.Delete` | src/dns_cache.c:651-656 | the record is gone, the caller's reference stays good |
| `Cache.Store.Flush` | src/dns_cache.c:609-620 | no record is left, callers' references stay good |
| `Cache.Store.Expired` | src/dns_cache.c:204-234 | all outcomes of an expiry: whether the timer is pending, what lookups see, what callers hold, and exactly when a reference is lost |
| `Cache.Store.GiveBack` | src/dns_cache.c:133-149 | a caller's reference given back, between calls |
| `Cache.Store.NewPacket` | src/dns_cache.c:180-202 | a data block counted in the total with one reference for the caller |
| `Cache.Store.DataOf` | src/dns_cache.c:584-597 | the data of an entry, with a reference for the caller |
| `Cache.NothingHeld` | src/dns_cache.c:106-123 | with an empty list and nothing held by callers the entries left are those with a lost reference; without one everything was freed and both totals are zero |
| `CacheRuns.Run` | src/dns_cache.c:106-687 | for every sequence of inserts, replaces, uses, deletes, expiries and flushes: a lookup finds what was last written for the key, up to case, or nothing; the cache stays within its limit; everything the calls took was given back |
| `Lifecycle.Request.SendOne` | src/dns_client/dns_client.c:271-369 | a send is counted, a failed one uncounted |
| `Lifecycle.Request.SendPacket` | src/dns_client/dns_client.c:371-462 | two rounds over the servers, the second only if nothing was sent |
| `Lifecycle.Request.Recv` | src/dns_client/dns_client.c:139-197 | counting, deduplication by server and the four actions of a reply |
| `Lifecycle.Request.Period` | src/dns_client/dns_client.c:563-590 | a timeout of a listed query: one retry less or freed, freed at the last retry or with a result, and steady again |
| `Lifecycle.Request.StreamRetry` | src/dns_client/client_http2.c:237-261 | a failed stream: it costs a retry unless there is a result or the count is invalid, and the query is steady again |
| `Lifecycle.Request.Start` | src/dns_client/dns_client.c:464-549 | a new query: accepted with one reference, four retries and a right count, in the tables exactly if an id was unused; refused and freed without a callback when nothing could be sent |
| `Lifecycle.Request.AddHashmap` | src/dns_client/query.c:330-376 | the loop takes the first unused id of at most 33 draws; the query is hashed if and only if there is one |
| `Lifecycle.Request.Handle` | src/dns_client/dns_client.c:139-197 | every event that reaches the object through the tables and its streams is the step of the event, and keeps the query steady |
| `Lifecycle.Request.Serve` | src/dns_client/dns_client.c:563-590 | every run on the object: END at most once and exactly with the last reference, in time with the retries, and the count right |
| `Lifecycle.StartSteady` | src/dns_client/dns_client.c:464-549 | an accepted query has one reference and four retries; a refused one is freed and never calls back |
| `Lifecycle.EndsOnce` | src/dns_client/query.c:32-82 | in every run the end is told at most once, exactly when the query is freed |
| `Lifecycle.TimeoutsEnd` | src/dns_client/query.c:317-328 | a query in the tables is freed no later than by its last retry |
| `Lifecycle.EveryQueryEnds` | src/dns_client/dns_client.c:464-549 | an accepted and hashed query with four timeouts among any events has ended exactly once |
| `Lifecycle.EndsIffHashed` | src/dns_client/query.c:330-376 | every run with four timeouts frees an accepted query if and only if one of its 33 ids was unused |
| `Lifecycle.UnhashedEnds` | src/dns_client/query.c:330-376 | an accepted query in no table is freed in a run if and only if four failed streams reach it |
| `Lifecycle.RunBalanced` | src/dns_client/dns_client.c:149-197 | in every run the send count is sends less failed streams less counted replies, each server counted at most once |
| `Lifecycle.EveryCount` | src/dns_client/dns_client.c:149-197 | that count in every run, from the call that made the query |
| `Lifecycle.HonestRun` | src/dns_client/dns_client.c:155-160 | when servers answer for themselves the count is what is outstanding, and the invalid-count branches are out of reach |
| `Lifecycle.HonestCount` | src/dns_client/dns_client.c:155-160 | from the call that made the query: the count is the number of sends still open, and no honest event finds it invalid |
| `Lifecycle.StepStarves` | src/dns_client/client_http2.c:243-257 | one event leaves a query in the tables with nothing outstanding if and only if it uses up the last send in one of the two ways |
| `Lifecycle.InvalidIffStarved` | src/dns_client/dns_client.c:155-160 | for every accepted query and every run, an invalid-count branch comes within reach if and only if some event does so |
| `Lifecycle.InvalidReachable` | src/dns_client/client_http2.c:243-248 | a run in which an asked server makes the count negative |
| `CloseGuard.ServerInfo.GuardEnter` | src/dns_client/client_socket.c:317-322 | the depth is the number of guards held, now with one of this thread |
| `CloseGuard.ServerInfo.GuardLeave` | src/dns_client/client_socket.c:324-342 | the leave closes exactly if it is the outermost and a close was asked for in this guarded time; no deferral outlives it |
| `CloseGuard.ServerInfo.AskClose` | src/dns_client/client_socket.c:150-164 | the close goes on exactly if nobody holds a guard, and is deferred otherwise |
| `CloseGuard.ServerInfo.FinishClose` | src/dns_client/client_socket.c:171-262 | the last one: deferred, started over, or everything torn down |
| `CloseGuard.ServerInfo.Conclude` | src/dns_client/client_socket.c:171-262 | under a guard the last section takes nothing away and defers |
| `CloseGuard.ServerInfo.Interleave` | src/dns_client/client_socket.c:144-342 | any interleaving of the threads on the object is a run of the transition system and keeps its invariant |
| `CloseGuard.NextKeeps` | src/dns_client/client_socket.c:144-273 | every step of every thread keeps the guard count and the deferral exact, and tears down only an unguarded connection |
| `CloseGuard.DeferredClose` | src/dns_client/client_socket.c:144-342 | in every interleaving from the start nothing is torn down while guarded, a close is deferred only while guarded, a closing thread holds no guard, and each guarded time with a request gets exactly one close attempt, which closes if undisturbed |
| `CloseGuard.Undisturbed` | src/dns_client/client_socket.c:144-273 | a close that no other thread disturbs runs to its end: no ssl, no context, and no streams unless they are to be kept |

## Left out

- NS records in the message round trip: encode writes them through the raw branch, so their data is not a wire name.
- SVCB and HTTPS records in `Message`: they have their own round trip in `Svcb`; `Message.Decode` refuses them.
- The zero-timeout TCP keepalive option, cookies and other EDNS options, and encoding one packet twice.
- The rewrite of questions that begin with '-', and TXT or other records of 1024 bytes and more.
- MessageTheorems.MessageRoundTrip: takes packets as their section lists. How the records are written into the arena of a packet, with names compressed there too, and the room in the receiving packet are not part of it; the lists of the arena are modelled on their own in `Arena`.
- Arena.Packet.Add: takes the bytes of a record in one bounded write, where the source makes several; a record that fails in between is not linked in either.
- Svcb.RecordReads: is about the record data behind the record head; a record of the root name with no target and no parameters, which the source may drop, is not distinguished.
- Update.UpdateDomain: models a copy past the end of the query text as failure, because what such a copy reads is not determined by the text; on names equal to the query it does not occur.
- Texts with NUL bytes in comparisons ignoring case.
- Ring.Log.Vprintf: models the non-blocking path without segments; blocking, the check before formatting, rotation and gzip are not modelled.
- The extension of https, srv and txt rules by their callers, which is in place like that of ipset and nftset rules, and `domain-set:` arguments.
- RuleStore.Store.Run: takes single-valued types and flags; list-valued types are in `RuleStore.Store.AddAt`, and break the isolation.
- RuleStore.Store.AddAt: takes a rule of the kind that belongs to the type, as all callers pass it; other kinds are not modelled. The names chained behind a rule are part of its value, so the references of chained rule objects, and names chained behind a rule that its caller still holds, are not modelled.
- Failing allocations everywhere, and counters that overflow.
- ART tree, radix tree, timer wheel and hash tables: contracts only. Address rules of groups are not modelled.
- Cache file load and save, visit and insert times, statistics. One call is one step: what happens between the two locked parts of an insert is not modelled.
- CacheRuns.Run: one client call is one step; clients that keep references from one call to another are covered by the contracts of the single calls.
- Cache.Store.Replace: the reference its lookup takes and gives back inside the step is elided, as in `Cache.Store.UpdateTimer`.
- Lifecycle.Request.Handle: one event is one step; the locks between the parts of an event, and the close of the connection on RETRY, are not modelled.
- Which servers a send reaches (groups, fallback, prohibited servers, sockets) is a parameter of the events in `Lifecycle`.
- Closing of single HTTP/2 streams before the last critical section, failing connects, shutdown of SSL, proxies and descriptors in `CloseGuard`.
- Sockets, epoll, TLS, QUIC and HTTP libraries, option parsing, plugins, certificates, lease and host files.

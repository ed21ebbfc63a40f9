# A verified model of the MMORPG simulator

The simulator is an authoritative game server, console clients that keep a copy of the part of the game they show, and
a length-prefixed binary protocol between them. This project models the server as one state that every packet and every
connection event changes in one atomic step, the client as a replica that applies the messages it is sent, in order, and
the byte streams that carry them. It proves what every step keeps, what holds after every run, and that the classes
written in the program's own imperative form take exactly the modelled steps.

`dafny verify dfyconfig.toml` checks everything.

## How the model is laid out

| file | what it holds |
|---|---|
| `Machine.dfy`, `Tables.dfy`, `Protocol.dfy` | machine words and truncating stores, the loaded tables, the messages |
| `Wire.dfy` | both stream decoders and encoders, in place, against a one-shot parser |
| `Client.dfy`, `GameClient.dfy` | the client's view as a value, and its handlers over mutable globals |
| `Character.dfy`, `Sessions.dfy` | one session's handlers as functions, and the session class that refines them |
| `Party.dfy` | the two party maps, pending invites, and their invariants |
| `Server.dfy`, `GameServer.dfy` | the whole server's step function, and the server class that refines it |
| `Effects.dfy`, `Combat.dfy`, `Invites.dfy` | what each request does to the world and to every session's log, in the program's terms |
| `Frames.dfy`, `Replica.dfy`, `Replication.dfy`, `Runs.dfy` | from frames of single steps to safety and replication over runs |
| `NpcReplica.dfy`, `OwnReplica.dfy` | the parts of replication that need no rule of the clients, or only one client's own |
| `Progress.dfy`, `Stats.dfy` | levels and kill shares; when attack, defence and threshold follow from level and equipment |
| `Quests.dfy`, `Economy.dfy`, `Drops.dfy` | quest durability, items and gold, drop odds |
| `Laws.dfy`, `Shown.dfy` | laws of moves, hits and hit points over runs; when the gold, experience and NPC hit points shown are the server's |
| `Crossing.dfy`, `EndToEnd.dfy` | the run with crossed invites; a server object and a client object together |

A value-level function describes each handler; the class method of the same name, with its loops and field updates,
ensures that the abstract state after it is that function of the abstract state before it. Two methods close the chain:
`GameServer.Serve` runs the event loop and arrives where the run says, and `GameClient.Drain` empties a client's queue.
`EndToEnd` joins the two: what the run theorems say of the abstract states holds of a server object and a client object.

The functions are not left to speak for themselves: for every event that reaches a handler a lemma named `...Effect` says,
from the fields of the world before, what every field of the world is afterwards and which messages each session was
sent, in order. It does so without the functions the handler is built from, except table look-ups, the search for an
empty slot and the level loop, for which there are laws of their own.

## What is assumed

- The event loop runs on one thread (GameServer/main.cpp:1453), so a handler or a disconnect is one atomic step.
- Channels are reliable and first-in-first-out. `sent` in a session is everything `Send` has handed to its socket; a
  client that has handled a prefix of it and drains the rest is what the replication theorems speak of. `Send` drops the
  message once a write has failed, and a cut-off session is not compared any more.
- Session, party and NPC ids are unbounded counters; all other fields have their declared width and wrap.
- `rand()` and the uid of a new item are inputs of the event, any natural number each; the handlers reduce the random
  numbers as the program does. Database calls succeed; `quest_progress` is a map.
- Loaded item ids are not 0 and quest ids are distinct (`Tables.WellFormed`). Nothing is assumed about item ids being
  distinct: the first entry wins, as in the loop.
- A run may keep two rules, and each theorem names the ones it needs. *Disciplined*: clients send what
  GameClient/main.cpp:672-696 lets them send (select-screen packets before the one select, the rest after it), accounts
  and characters are in the game once, and loaded items are in the item table. *Uncrossed*: no session accepts an invite
  that would put it into a second party. Runs without either rule are allowed everywhere else. `OwnReplica.OwnReplicas`
  asks discipline of one client only, and that nobody else is logged in under its account.
- `g_inventories` and `g_questProgress` are keyed by session id and erased with the session, so they are fields of the
  session here; a missing entry is an empty one.

## Where the obvious claim fails

The code is kept as it is. Each of these has the exact condition and a concrete input that fails.

| claim | exact condition | failing input |
|---|---|---|
| a player is in at most one party | `Party.AcceptPartitionIff`: the accept adds no session that has a party | `Crossing.CrossedRun`, from start-up |
| the level threshold is 100 times the level | `Stats.ThresholdOverStay`: it was at the start, or an award has met the guard of the level-up loop; after a select, `Progress.ThresholdFitsIff` | `Progress.ThresholdStays` |
| attack follows from level and weapon | `Stats.SinceSelect`, `Stats.AtkSinceEquip`: the level was 1 at the select or weapon equip it stems from; `Stats.EquipAtkIff` and `Stats.SelectStatsIff` for the single calls | `Stats.EquipOrderMatters`, `Stats.LoadForgetsLevels` |
| defence follows from level and armor | `Stats.SinceSelect`, `Stats.DefSinceEquip`: that level was 1 or 32769; `Stats.EquipDefIff` for the single call | every other level, by the same lemmas |
| a consumable never lowers hit points | `Laws.UseHealsIff`: the sum fits 16 bits | `Laws.PotionWraps` |
| the gold a client shows follows its kills | `Shown.GoldInStepIff`: the session's shares make up the whole ten | every bystander, by the same lemma |
| the answer to a sale shows the gold | `Shown.SellGoldShownIff`: something was sold, or there is no gold | an empty slot, by the same lemma |
| the experience a lone killer's client shows is the server's | `Shown.ExpInStepIff`: the kill brought no level | a kill at 70 of 100, by the same lemma |
| a session's items are distinct | `Economy.LoadedDistinctIff` | `Economy.WornLoadedTwice` |
| the client sees the whole bag | `Replica.LoadAgreesIff`: the loaded items are in the item table | `Replica.UnknownItemHidden` |
| the decoding loop ends | `Wire.LoopLeavesIff`: no zero length is met | `Wire.ZeroBytesStick` |
| the read window is never empty | `Wire.WindowClosesIff`: no full buffer starts with a length above its size | `Wire.OversizedHeadStops` |

`Runs.ServerSafety`, `Progress.KillShares` and `Quests.QuestLife` hold in crossed runs as well.

## Model

| member | source | states |
|---|---|---|
| Wire.ChunkingIndependent | GameServer/Session.cpp:19-57 | Every way of cutting a byte stream into chunks, decoded chunk by chunk with the rest kept, delivers exactly the packets of the one-shot parse and keeps the same undecoded suffix |
| Wire.ParseSplit | GameServer/Session.cpp:37-57 | Parsing a prefix and then its leftover with the rest is parsing the whole, for all byte strings, malformed ones included |
| Wire.RoundTrip | GameServer/Session.cpp:59-71 | Parsing undoes the encoder on every list of packets that fit the buffer, leaving nothing over |
| Wire.DecoderProgress | GameServer/Session.cpp:19-57 | After any number of bytes of an admissible stream the delivered packets are a prefix, the buffered bytes are a strict prefix of the next packet and the next read window is not empty |
| Wire.LoopLeavesIff | GameServer/Session.cpp:37-57 | The decoding loop leaves after finitely many iterations if and only if no iteration meets a complete packet of length zero; the parser's flag says the same |
| Wire.ZeroBytesStick | GameServer/Session.cpp:38-51 | Four zero bytes keep the loop going for ever |
| Wire.WindowClosesIff | GameServer/Session.cpp:19-23 | The window offered to the socket is empty exactly when a full buffer starts with a length above its size |
| Wire.OversizedHeadStops | GameServer/Session.cpp:21-43 | A full buffer headed by the length 8193 delivers nothing and leaves no room to read into |
| Wire.HandledJoin | GameClient/TcpClient.cpp:86-91 | Skipping packets without a handler commutes with concatenating deliveries |
| Wire.ServerStream.ProcessBuffer | GameServer/Session.cpp:37-57 | In place, the loop appends the parsed packets to the delivery and leaves the parser's rest at the front of the buffer |
| Wire.ServerStream.MoveDown | GameServer/Session.cpp:51-55 | The overlapping move puts the suffix at the front |
| Wire.ServerStream.OnRead | GameServer/Session.cpp:19-33 | One completed read delivers the parse of buffered plus received bytes |
| Wire.ServerStream.DoRead | GameServer/Session.cpp:19-57 | Whatever chunks the socket delivers, the whole encoded stream is delivered once and in order, and the buffer ends empty |
| Wire.ServerStream.EncodeToBuffer | GameServer/Session.cpp:59-71 | The filled buffer is the encoding: little-endian length and type, then the payload |
| Wire.ClientStream.ProcessPackets | GameClient/TcpClient.cpp:77-93 | The client's loop hands over the same parse, restricted to the types with a handler, and keeps the same rest |
| Wire.ClientStream.RecvLoop | GameClient/TcpClient.cpp:54-75 | Whatever chunks recv returns, every packet with a handler is handled once and in order |
| Wire.ClientStream.Send | GameClient/TcpClient.cpp:43-52 | The two writes put the same encoding on the stream as the server's one buffer |
| Wire.HeaderLayout | GameServer/Session.cpp:59-71 | On the wire the first two bytes hold the total length and the next two the type, low byte first, and the payload follows |
| Effects.ConnectEffect | GameServer/Session.h:10-22 | A new session has the default player, an empty bag, no quests and an empty log, under the next id |
| Effects.LoginEffect | GameServer/main.cpp:488-543 | A login sets the account only and is answered with account and character list |
| Effects.SelectEffect | GameServer/main.cpp:587-657 | After a select the player has the stored level, experience, gold and cut name, the random start, the stored bag and quest rows and the attack and defence of what is worn, and keeps all else; its log grows by its own state, the living NPCs with their hit points, the players in the game, attendance and inventory, and the others hear of it once; a refused one changes nothing but an error 1 |
| Effects.MoveEffect | GameServer/main.cpp:711-739 | The position becomes exactly (x+dx, y+dy) if that is within 0..19 and stays otherwise, for every 16-bit position and 8-bit offset; the mover and everyone else are told the result, and nothing else changes |
| Effects.UseEffect | GameServer/main.cpp:741-776 | A known consumable sets the hit points to the smaller of the maximum and the 16-bit sum and empties its slot; everyone in the game, then the user, is told; any other use changes nothing |
| Effects.EquipEffect | GameServer/main.cpp:778-837 | A known weapon or armor changes places with the one worn and sets its stat from the base; three messages; a consumable is refused, all else ignored |
| Effects.BuyEffect | GameServer/main.cpp:899-937 | A purchase goes through exactly for a known item, enough gold and an empty slot, costs the price and fills the first empty slot |
| Effects.SellEffect | GameServer/main.cpp:939-966 | A sale empties the slot and pays a fifth of the price rounded down, modulo 64 bits; nothing is sold from an empty slot |
| Effects.ListEffect | GameServer/main.cpp:979-1008 | Within one step of (2, 2) the first ten quests with the session's status and progress are listed; elsewhere error 3 is all |
| Effects.AcceptEffect | GameServer/main.cpp:1010-1039 | An accept goes through exactly at the quest NPC, for a known quest without status 1, 2 or 3; memory and table then hold status 1 and progress 0; otherwise only the refusal is sent |
| Effects.CompleteEffect | GameServer/main.cpp:1041-1101 | A completion goes through exactly at the quest NPC for a known quest of status 2; status 3 in memory and table, gold, experience, levels, the item in the first empty slot, and every message in order; otherwise only the refusal is sent |
| Effects.LevelsTold | GameServer/main.cpp:429-449 | The level check sends one message a level, the k-th with k levels more and the stats of that level |
| Effects.FindItemIff | GameServer/main.cpp:87-91 | An item id stands for exactly the first table entry that carries it |
| Effects.FindQuestIff | GameServer/main.cpp:969-973 | So does a quest id |
| Effects.ItemNamed | GameServer/main.cpp:818-821 | The name sent for an item is the first 31 characters of that entry's name, and empty for an unknown id |
| Combat.TickedIs | GameServer/main.cpp:1106-1112 | A credit moves each accepted quest of the table by one, modulo 65536, makes it completable at its target, and leaves every other quest alone |
| Combat.AttackEffect | GameServer/main.cpp:1273-1375 | If the first living NPC of that uid is within one step, it loses the larger of 1 and attack - 2, down to 0, and the attacker is told exactly that; at 0, and only then, it is gone, the first dead NPC is replaced with 30 hit points under a new uid, and every session is paid and told as listed; otherwise the attacker is told it missed and nothing changes |
| Combat.SharesTold | GameServer/main.cpp:1313-1337 | What a session hears of a shared kill: per listing the experience, its levels and, except for the killer, its quest credits |
| Combat.TicksTold | GameServer/main.cpp:1103-1121 | A credit sends one message for each accepted quest of the table, in id order, with the progress one further |
| Invites.InviteEffect | GameServer/main.cpp:1185-1227 | An invite is recorded exactly when the inviter's party, if any, has fewer than four entries and the last session of that name is another one in no party; then pending gains exactly that entry and only that session is told; otherwise error 4 to the inviter is the only change |
| Invites.PendingUnpartied | GameServer/main.cpp:1215-1222 | Over every step, pending gains an entry only for another session in no party, by an invite to its name |
| Invites.AnswerEffect | GameServer/main.cpp:1229-1266 | An answer removes the invite; it joins exactly when it accepts, the inviter is there and its party has room, at the end of the list, and each listed session then hears the size and the characters once per listing |
| Invites.LeaveEffect | GameServer/main.cpp:1148-1183 | Leaving strikes every entry of the session and dissolves a party left with at most one; each remaining entry hears who left and then the end or the new state |
| Invites.DisconnectEffect | GameServer/main.cpp:1377-1382 | A disconnect does that, drops the session's own invite, tells everyone in the game if the player was, and removes the session |
| Laws.MoveBack | GameServer/main.cpp:711-724 | A move and the opposite move return to the start when the first one stays on the map |
| Laws.PlayersWell | GameServer/main.cpp:711-757 | In every reachable state every player is on the map with at most the maximum hit points, and at full health as long as no use has overflowed |
| Laws.StepWell | GameServer/main.cpp:741-757 | Over any step a player at full health loses it exactly by a use whose sum leaves 16 bits |
| Laws.UseHealsIff | GameServer/main.cpp:753 | A use lowers the hit points exactly when it is one whose sum leaves 16 bits |
| Laws.PotionWraps | GameServer/main.cpp:753 | With 65520 hit points, those of level 3272, the shipped potion leaves 34 |
| Laws.HitsToKill | GameServer/main.cpp:1294-1311 | A player that keeps attacking an NPC in reach kills it with exactly the hit at which n times max(1, attack - 2) reaches its hit points; before that exactly the sum of the hits is missing |
| Laws.ThirdHitKills | GameServer/main.cpp:1294-1311 | A new player's second hit on a fresh NPC leaves 4 hit points and its third kills |
| Shown.HitShown | GameClient/main.cpp:320-332 | In every reachable state a hit that does not kill shows the attacker exactly the hit points the server has |
| Shown.SpawnShown | GameClient/main.cpp:296-301 | After a kill every client in the game shows the replacement where it is with 30 of 30 |
| Shown.GoldInStepIff | GameClient/main.cpp:311-318 | Through a kill, gold that was shown right stays right exactly when the session's shares add up to ten: for a lone killer, for no bystander |
| Shown.BuyGoldShown | GameServer/main.cpp:899-937 | Any answer to a purchase shows exactly the server's gold |
| Shown.SellGoldShownIff | GameServer/main.cpp:945-947 | The answer to a sale does exactly when something was sold or there is no gold |
| Shown.ExpInStepIff | GameServer/main.cpp:1329-1332 | A lone killer's client shows the server's experience, and its threshold, exactly when the kill brought no level |
| Shown.UseStatusShown | GameServer/main.cpp:758-775 | After an item is used, the user's client shows its gold and experience as the server has them |
| Shown.EquipStatusShown | GameServer/main.cpp:816-835 | So it does after a weapon or armor is put on |
| Shown.RewardStatusShown | GameServer/main.cpp:1090-1100 | And after a quest is turned in, with all its levels |
| Client.DrainedView | GameClient/main.cpp:213-577 | A client that has handled any prefix of its log shows, once drained, the replay of the whole log |
| GameClient.GameClient.Handle | GameClient/main.cpp:213-577 | Each handler changes the globals as the view function says and nothing else |
| GameClient.GameClient.Drain | GameClient/main.cpp:213-577 | Handling a queue of messages is applying them in order to the view |
| GameClient.GameClient.OnQuestProgressUpdate | GameClient/main.cpp:492-505 | Only the first entry with the id changes, and it becomes completable by the client's own comparison |
| GameClient.GameClient.OnInventoryList | GameClient/main.cpp:420-432 | The loop stores the listed entries in order into the slots they name |
| GameClient.GameClient.FindNearestNpc | GameClient/main.cpp:579-590 | The result is a shown NPC at least distance, the lowest uid among equals, and 0 exactly when none is shown |
| Replica.LoadAgreesIff | GameServer/main.cpp:217-284 | After loading onto an empty client the shown slots and equipment equal the server's exactly when every loaded item is in the item table; attack and defence always do |
| Replica.UnknownItemHidden | GameServer/main.cpp:253-266 | With the item table as shipped, which has no item 7, a stored item 7 is in the first slot on the server and no slot of the client shows item 7 |
| Replica.EquipLocal | GameServer/main.cpp:778-837 | Equipping keeps the session's replica of stats, slots, equipment and quests, and changes nothing the other sessions mirror |
| Replica.BuyLocal | GameServer/main.cpp:899-937 | The same for every outcome of a purchase |
| Replica.SellLocal | GameServer/main.cpp:939-966 | The same for every outcome of a sale |
| Replica.UseLocal | GameServer/main.cpp:741-776 | The same for using an item, the broadcast to the user included; how much it heals is `Effects.UseEffect` |
| Replica.AwardLocal | GameServer/main.cpp:1321-1331 | The same for an award of experience and gold with any number of level-ups |
| Replica.AcceptLocal | GameServer/main.cpp:1010-1039 | Once a quest list is in the log, the client's locally updated list is still the one the server would send after an accept; before, it shows none |
| Replica.TicksLocal | GameServer/main.cpp:1103-1121 | The same after any set of quests is credited one kill, although the client computes completability itself |
| Replica.CompleteLocal | GameServer/main.cpp:1041-1101 | The same after a completion with gold, experience, level-ups and an item |
| Replication.SelectAgrees | GameServer/main.cpp:587-657 | Entering the game keeps all replicas: the entrant learns the living NPCs and players, everyone else learns of the entrant |
| Replication.MoveAgrees | GameServer/main.cpp:711-739 | A move keeps all replicas of all sessions; where it leads is `Effects.MoveEffect` |
| Replication.DeathAgrees | GameServer/main.cpp:1305-1311 | A death notice and the death together keep every NPC replica |
| Replication.RespawnAgrees | GameServer/main.cpp:357-371 | So do a respawn and its notice, given the uid is new |
| Runs.DisconnectAgrees | GameServer/TcpServer.cpp:43-52 | Party clean-up, leave notice and removal keep the replicas of all remaining sessions |
| Runs.Replicas | GameServer/main.cpp:217-1382 | In every reachable state of a disciplined run every connected client, once drained, shows its own level, hit points, attack, defence, position, 20 slots and equipment as the server has them; from the first quest list sent on exactly the list the server would send now, and before that none; and in the game exactly the living NPCs and the other players at their positions |
| OwnReplica.OwnReplicas | GameServer/main.cpp:217-1382 | Whatever the other clients send, a connected client that keeps to the protocol itself and whose account nobody else is logged in under shows, once drained, its own stats, position, slots, equipment and quest list as the server has them |
| EndToEnd.CatchUp | GameClient/main.cpp:213-577 | A client object whose globals show any handled prefix of its session's log handles the rest and then shows all of that |
| EndToEnd.ServeAndShow | GameServer/main.cpp:1453 | A started server object serves a disciplined run, a new client object handles what its session was sent, and the two objects agree |
| NpcReplica.NpcReplicas | GameServer/main.cpp:357-385 | In every reachable state of every run, whatever the clients send, a connected client in the game that has handled any prefix of its log shows, once drained, exactly the uids and positions of the living NPCs |
| NpcReplica.SelectRight | GameServer/main.cpp:621-645 | A select, a first one or a repeated one, leaves every client showing the living NPCs |
| NpcReplica.KillRight | GameServer/main.cpp:1305-1369 | So does a kill with its death notice, rewards, drop, respawn and spawn notice, in that order of messages |
| Runs.ServerSafety | GameServer/main.cpp:1148-1382 | In every reachable state, crossed invites included: five living NPCs with distinct uids and 1 to 30 hit points; every partied session is live and listed in an existing party of 2 to 4 entries under its own id; hence every event of a live session is possible and no kill divides by zero |
| Runs.PartyPartition | GameServer/main.cpp:1148-1271 | Over uncrossed runs the party maps are inverse to each other, members are distinct and live, and party sizes add up to the number of partied sessions |
| Runs.HitsBounded | GameServer/main.cpp:1273-1311 | Over any run the number of successful attacks is at most 30 a kill plus what the living NPCs have lost |
| Runs.KillsDistinct | GameServer/main.cpp:357-362 | Over any run no NPC uid is killed, and so pays a reward, twice, and every killed uid is below the counter and not alive afterwards, so it is never handed out again |
| Runs.StepNpcs | GameServer/main.cpp:1273-1375 | Each step changes the NPC list by at most one hit or one replacement, and keeps it well-formed |
| Party.RemoveSafe | GameServer/main.cpp:1148-1183 | Leaving, disbanding included, keeps the unconditional map invariant and unlists the leaver |
| Party.AcceptSafe | GameServer/main.cpp:1229-1266 | Accepting keeps it, whoever accepts |
| Party.DisconnectSafe | GameServer/main.cpp:1377-1382 | A disconnect keeps it for the sessions that remain |
| Party.RemovePartition | GameServer/main.cpp:1148-1183 | Leaving keeps one party per player |
| Party.AcceptPartitionIff | GameServer/main.cpp:1229-1266 | Accepting keeps one party per player if and only if it does not add a session that already has a party |
| Party.CrossedInvites | GameServer/main.cpp:1215-1266 | Two invites across, both accepted, list the first inviter twice |
| Crossing.CrossedRun | GameServer/main.cpp:1215-1266 | Ten events from start-up, every client keeping to the protocol, end with the first inviter listed twice |
| Party.SizesCount | GameServer/main.cpp:77-85 | Under the partition, party sizes sum to the number of partied sessions |
| Progress.LevelUpPathIndependent | GameServer/main.cpp:429-449 | Awarding in two instalments with a level check after each gives the same session state and the same level-up messages as awarding the sum once |
| Progress.LevelUpStats | GameServer/main.cpp:429-449 | For all machine values the loop ends below the threshold; n turns add n levels and 20, 3 and 2 per level to the stats, modulo their width, and touch nothing else |
| Progress.LevelUpConserves | GameServer/main.cpp:429-449 | Without level wrap, total experience 50L(L-1)+exp is conserved and determines the final level |
| Progress.ThresholdFitsIff | GameServer/main.cpp:621-630 | After a select and a first award the threshold is 100 times the level exactly when the character was loaded at level 1 or the award brought it to 100 experience |
| Progress.ThresholdStays | GameServer/main.cpp:621-630 | A character loaded at level 5 without experience has the threshold 100, and 100 experience take it to level 6 |
| Progress.EquipForgetsLevels | GameServer/main.cpp:800-805 | Levelling up and then taking up a weapon gives the attack of the other order exactly when the levels' bonus is 0 modulo 65536 |
| Stats.EquipAtkIff | GameServer/main.cpp:800-805 | Right after a weapon is put on, attack is 15 plus the weapon's plus 3 a level above the first, modulo 65536, exactly when the level is 1 |
| Stats.EquipDefIff | GameServer/main.cpp:806-812 | Right after an armor is put on, defence follows from level and armor exactly when the level is 1 or 32769, where the bonus wraps to 0 |
| Stats.LoadStatsIff | GameServer/main.cpp:250-252 | Right after the load of a new session, worn items or none, attack and defence follow exactly at those levels |
| Stats.SelectStatsIff | GameServer/main.cpp:621-645 | So a new session's character enters the game with them exactly when it is loaded at those levels |
| Stats.StepGrown | GameServer/main.cpp:429-449 | What any step does to a session in the game: the threshold follows afterwards if an award met the loop's guard, and level and threshold stay if none did; maximum hit points less 20 a level stay; so do attack less 3 and defence less 2 a level, and the item worn, unless that item is replaced |
| Stats.StayKeepsRests | GameServer/main.cpp:429-449 | Over a whole stay in the game, whatever happens, maximum hit points less 20 a level are conserved modulo 65536, and so are attack less 3 a level until a weapon, and defence less 2 a level until an armor is put on |
| Stats.StatsOverStay | GameServer/main.cpp:429-449 | So attack follows from level and weapon at any later time exactly when it did at the start, until a weapon is put on, and defence until an armor is |
| Stats.AtkSinceEquip | GameServer/main.cpp:800-805 | From a weapon equip until the next, whatever happens between, attack follows exactly when the level was 1 at the equip |
| Stats.DefSinceEquip | GameServer/main.cpp:806-812 | Defence from an armor equip until the next exactly when that level was 1 or 32769 |
| Stats.ThresholdOverStay | GameServer/main.cpp:429-449 | Over a whole stay in the game, whatever happens, the threshold is 100 times the level exactly when it was at the start or some award of the run met the loop's guard |
| Stats.SinceSelect | GameServer/main.cpp:621-645 | From a new session's select on: attack until a weapon, defence until an armor is put on, and the threshold follow exactly for a character loaded at level 1 (defence also at 32769, the threshold also once an award met the guard) |
| Stats.EquipOrderMatters | GameServer/main.cpp:800-805 | A level and then an equip of the shipped Rusty Sword give attack 20, the other order 23, at the same level with the same weapon |
| Stats.LoadForgetsLevels | GameServer/main.cpp:250-252 | A level-2 character loaded with that sword has attack 20 without any equip |
| Progress.KillDistribution | GameServer/main.cpp:1313-1337 | In every reachable state of an uncrossed run a killing step gives each of the n members of the killer's party exactly the floored n-th part and one tick per accepted quest, the killer included, and every other session only messages |
| Progress.KillShares | GameServer/main.cpp:1305-1365 | Every killing step, crossed accepts included: a session listed k times gets k shares and k ticks, the killer one tick in all and the drop, all others only messages; the shares never exceed the reward and lose less than one unit an entry |
| Quests.StepStored | GameServer/main.cpp:314-338 | Every disciplined step keeps each session's quests equal to its character's table rows |
| Quests.StepEntry | GameServer/main.cpp:1010-1121 | A character's quest entry after any disciplined step: accepted, completed, or one tick further for every credit the step gives, stopping at the target |
| Quests.OneTickPerKill | GameServer/main.cpp:1313-1337 | In uncrossed runs a kill credits a character that took part exactly once |
| Quests.QuestLife | GameServer/main.cpp:314-338 | Over disciplined runs, crossed accepts included, across any disconnects and new logins: memory equals the table, status only rises through 0, 1, 2, 3, progress counts the ticks since acceptance and reaches the target exactly, and the quest has paid once if and only if its status is 3 |
| Quests.QuestPaysOnce | scripts/quest_system.sql:15-31 | From no row, a quest pays at most once, and only after exactly its target of ticks |
| Economy.ItemLedger | GameServer/main.cpp:741-1375 | Over any run after the load and for every item: what a session owns in slots, weapon and armor, plus what it sold or used, is what it owned at first plus what it was given |
| Economy.EquipItems | GameServer/main.cpp:800-812 | Equipping is a swap: no item appears or is lost |
| Economy.UidsStayDistinct | GameServer/main.cpp:286-297 | Over any run in which every item handed out carries a uid no owned item has, distinct items stay distinct |
| Economy.LoadedDistinctIff | scripts/inventory_system.sql:10-22 | The loaded items are distinct exactly when no equipped item made it into the slots |
| Economy.WornLoadedTwice | scripts/inventory_system.sql:10-22 | A character that wears its only item owns two copies after the load |
| Economy.NoMoneyPump | GameServer/main.cpp:741-966 | Over any run that does not pay the session, whatever the others do, its gold plus the resale value of its belongings never rises and bounds its gold; if that fits 64 bits gold never wraps: it is the initial gold plus sales less purchases as unbounded integers |
| Economy.SellWealth | GameServer/main.cpp:939-957 | A sale turns the item into exactly its resale value when the wealth fits 64 bits, and then gold does not wrap |
| Economy.BuyWealth | GameServer/main.cpp:899-937 | A purchase never raises gold plus resale value |
| Drops.DropOdds | GameServer/main.cpp:340-349 | Of the rolls below the total exactly `weight` many select each entry, and every roll selects one, so the trailing return is not reached |
| Drops.ChosenIff | GameServer/main.cpp:340-349 | An entry is selected by exactly the rolls in its own stretch of accumulated weight |
| Drops.DroppedIsChosen | GameServer/main.cpp:340-349 | Whatever the random number, a table of positive total weight drops an entry of positive weight: the one the remainder selects |
| Drops.SumWeights | GameServer/main.cpp:157-166 | The loader's running sum is the total weight |
| Drops.RollDrop | GameServer/main.cpp:340-349 | Reducing any random number by the total and walking the running sum returns the item the weights select, and nothing from an empty table |
| Sessions.Session.CheckLevelUp | GameServer/main.cpp:429-449 | The loop terminates by a lexicographic measure and reaches the state the level laws speak of, messages included |
| Sessions.Session.OnItemEquip | GameServer/main.cpp:778-837 | The in-place handler reaches the state the replica, ledger and wealth lemmas speak of |
| Sessions.Session.OnShopBuy | GameServer/main.cpp:899-937 | The same for buying, all four outcomes |
| Sessions.Session.OnShopSell | GameServer/main.cpp:939-966 | The same for selling |
| Sessions.Session.OnQuestComplete | GameServer/main.cpp:1041-1101 | The same for completing a quest, with the row it writes |
| Sessions.Session.UpdateQuestProgress | GameServer/main.cpp:1103-1121 | The loop over the ordered quest map reaches the credited state and table |
| Sessions.Session.LoadInventory | GameServer/main.cpp:217-284 | The load loop, the stats, the bulk message and the equipment message |
| Sessions.FindEmptySlot | GameServer/main.cpp:351-355 | The least empty slot, or the number of slots |
| GameServer.GameServer.constructor | GameServer/main.cpp:1415-1421 | Start-up reaches the initial state: five NPCs with uids 1 to 5 |
| GameServer.GameServer.BroadcastExcept | GameServer/SessionManager.cpp:27-42 | Exactly the logged-in sessions but the excepted one receive the message, once |
| GameServer.GameServer.OnCharSelect | GameServer/main.cpp:587-657 | The in-place handler takes the step for which replication and `Effects.SelectEffect` are proved |
| GameServer.GameServer.ShareKill | GameServer/main.cpp:1313-1334 | The reward loop takes the step for which the distribution is proved |
| GameServer.GameServer.OnAttack | GameServer/main.cpp:1273-1375 | Search, hit, death, reward, drop and respawn take the attack step that `Combat.AttackEffect` describes |
| GameServer.GameServer.RemoveFromParty | GameServer/main.cpp:1148-1183 | Strike, tell, disband or update, in the program's order, take the modelled step |
| GameServer.GameServer.Join | GameServer/main.cpp:1229-1262 | The accept's bookkeeping does to the two maps what the party lemmas speak of |
| GameServer.GameServer.OnConnect | GameServer/TcpServer.cpp:21-39 | A new session under a new id, all others untouched |
| GameServer.GameServer.OnDisconnect | GameServer/TcpServer.cpp:43-52 | Party clean-up, then the leave notice, then removal |
| GameServer.GameServer.Handle | GameServer/main.cpp:1426-1449 | Every packet and connection event takes exactly the step that the effect lemmas and the run theorems speak of |
| GameServer.GameServer.Serve | GameServer/main.cpp:1453 | Handling a whole run ends in the state the run theorems speak of, with the run invariant kept |

## Left out

- Boost.Asio, Winsock, threads and mutexes: sockets are byte sequences, handlers are atomic steps.
- ODBC, SQL execution, retry and failover: the database is a quest table, a source of item uids and a record per select.
- Inventory rows in the database (add, remove, equip): only the uid they return matters here, and memory and database
  need not agree across logins, because equipped items are loaded twice.
- The string search that reads `items.json` and `quests.json`: the parsed tables are the input.
- Login and character stored procedures, character creation, attendance rewards, heartbeat, shop list and chat.
- Console drawing, the key loop and every text shown: messages keep the fields the client stores.
- Client gold, experience and its threshold as replicas over whole runs: the program does not keep them in step, and
  `Shown` says for single kills, purchases and sales exactly when it does.
- The client's party panel as a replica: the client clears it before the server acts (GameClient/main.cpp:707-712).
- An accepted write that fails later: a message handed to the socket counts as delivered.
- A non-empty drop table whose weights add up to 0: the program then divides by zero (GameServer/main.cpp:342); the model
  drops nothing.
- Payload layouts: a message is its field values; `Wire` treats payloads as bytes.
- Packets whose length is 1, 2 or 3: they are decoded as the loops do, but the callback's payload pointer then lies past
  the packet, and the model gives it an empty payload.
- The inventory array inside a session is a sequence in a field, because it is a struct stored by value in a map; the
  NPC array, the client's slots and quest list and the receive buffer are arrays.

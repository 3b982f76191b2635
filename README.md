# flyingfish core, modelled in Dafny

This project models three parts of the flyingfish reverse-proxy manager.

- **The route compiler**: `NginxService._loadConfig` and the `start`, `stop` and `reload` operations that wrap it. The compiler reads the listener, domain, stream-route and http-route tables. It groups the routes by listen port, then by domain name, and fills the nginx configuration object. The stream context gets one upstream per distinct upstream name, one SNI map per port and one server per port. The http context gets one named server per (port, domain) pair and one default server per port.
- **The admission decision**: `AddressAccess.access` and its helpers. This is the check nginx calls for each new connection. It allows (200) or denies (401) a source address on a listener, using the ip blacklist, the ip whitelist and the listener table. A blacklist or whitelist hit also bumps that row's counter and timestamp.
- **The DNS-record save**: `Save.saveDomainRecord`. It updates or inserts a row in the domain-record table. An empty value flagged "update by dns client" is filled in with the current public IP.

Each part takes the form of its source:

- The compiler is an imperative method. `RouteCompiler.LoadConfig` fills a `NginxConf` object in place, and its contract says the result equals `RouteCompiler.Compile(store)`. `Compile` is a function of the store snapshot. The lemmas in `CompilerProperties`, `FillProperties` and `GroupingProperties` state what the compiled configuration contains.
- The admission decision tree is a set of pure functions. The two counter writes are methods of the `AccessStore` class.
- The record save is a method of the `RecordTable` class. It is proved equal to the value-level `RecordSave.Upsert`.

Modules, in dependency order:

- `Options`
- `Decimal`: number-to-text conversion and the `parseInt(.., 10) || 0` reading.
- `Entities`: the table rows.
- `OrderedMap`: a JavaScript `Map` as a value that keeps insertion order.
- `NginxConfig`: the configuration object.
- `RouteCompiler`
- `CompilerProperties`, `FillProperties`, `GroupingProperties`
- `Supervisor`
- `AddressAccess`
- `RecordSave`

Some behaviours of the code worth knowing before reading the lemmas:

- **Two default stream routes on one port** are not rejected. The last one the fill loop meets becomes the map's `default` entry (`FillProperties.PortDefaultLast`, `FillProperties.PortMapDefaultKey`).
- **Upstreams shared by several routes.** The upstream group of a name is built from the first route with that name only; later routes with the same name add no target (`CompilerProperties.CompiledUpstreams`).
- **Starting and reloading.** `start` and `reload` always recompile the configuration and then send their command, whether or not nginx runs (`Supervisor.Start`, `Supervisor.Reload`).
- **The source address.** Only an empty address string is denied; its form is not checked.
- **The listener id.** A header in which no digit follows the leading white space and an optional sign reads as the global id 0, not only an absent one (`Decimal.ParseNoLeadingDigit`, `Decimal.ParseSignNoDigit`). Leading white space and a plus sign are skipped, and text after the digits is ignored (`Decimal.ParseSkipsSpace`, `Decimal.ParsePlus`, `Decimal.ParseTrailingIgnored`).

## Model

| member | source | states |
|---|---|---|
| Decimal.NatToString | backend/src/inc/Service/NginxService.ts:131 | a number prints as a non-empty run of decimal digits, with a leading zero only for 0 itself |
| Decimal.DigitsValueOfNatToString | backend/src/inc/Service/NginxService.ts:131 | the printed digits read back as the same number |
| Decimal.NatToStringInjective | backend/src/inc/Service/NginxService.ts:131 | two different numbers never print alike |
| Decimal.ParseIntOrZero | backend/src/Routes/Njs/AddressAccess.ts:36 | an empty header reads as 0, and a non-zero result needs at least one digit in the header |
| Decimal.ParseDigits | backend/src/Routes/Njs/AddressAccess.ts:36 | a header made only of digits reads as the number they spell |
| Decimal.ParseNatToString | backend/src/Routes/Njs/AddressAccess.ts:36 | reading a printed id gives the id back |
| Decimal.ParseNegative | backend/src/Routes/Njs/AddressAccess.ts:36 | a minus sign before the digits gives the negated number, so for n > 0 it is not read as the global id 0 |
| Decimal.ParseSkipsSpace | backend/src/Routes/Njs/AddressAccess.ts:36 | leading white space does not change how the header reads |
| Decimal.ParseNoLeadingDigit | backend/src/Routes/Njs/AddressAccess.ts:36 | a header starting with a character that is not white space, a sign or a digit is NaN and reads as the global id 0, whatever digits follow |
| Decimal.ParseSignNoDigit | backend/src/Routes/Njs/AddressAccess.ts:36 | a sign that no digit follows is NaN and reads as the global id 0 |
| Decimal.ParsePlus | backend/src/Routes/Njs/AddressAccess.ts:36 | a plus sign before the digits reads as the number itself |
| Decimal.ParseTrailingIgnored | backend/src/Routes/Njs/AddressAccess.ts:36 | text after the digits is ignored: a printed id followed by a non-digit reads as the id |
| Entities.FindDomain | backend/src/inc/Service/NginxService.ts:69-75 | the domain found has the requested id, and none is found only when no row has that id |
| Entities.StreamsOfListen | backend/src/inc/Service/NginxService.ts:62-66 | exactly the stream routes whose listener id is the listener's |
| Entities.HttpsOfListen | backend/src/inc/Service/NginxService.ts:89-93 | exactly the http routes whose listener id is the listener's |
| Entities.FindListen | backend/src/Routes/Njs/AddressAccess.ts:94-98 | the listener found has the requested id, and none is found only when no row has that id |
| OrderedMap.Put | backend/src/inc/Service/NginxService.ts:76-83 | `Map.set`: the key is bound to the new value; a new key goes last and an existing key keeps its place |
| OrderedMap.PutValid | backend/src/inc/Service/NginxService.ts:76-83 | setting a key keeps the key order free of repeats and in step with the bindings |
| OrderedMap.GroupVisitsValid | backend/src/inc/Service/NginxService.ts:58-114 | the grouping loops build a well-formed two-level map |
| OrderedMap.GroupedPorts | backend/src/inc/Service/NginxService.ts:76-77 | a port is grouped exactly when some visited route lies on it |
| OrderedMap.GroupedNames | backend/src/inc/Service/NginxService.ts:80-81 | a (port, domain name) pair is grouped exactly when some visited route has it |
| OrderedMap.LastVisitWins | backend/src/inc/Service/NginxService.ts:81 | a route that no later route with the same port and domain name follows is the one bound to that pair |
| OrderedMap.GroupedRouteVisited | backend/src/inc/Service/NginxService.ts:81 | the route bound to a pair was visited with exactly that port and name |
| OrderedMap.GroupedPortOrder | backend/src/inc/Service/NginxService.ts:76-77 | ports are kept in the order of their first visit, which is the order the fill loops iterate |
| NginxConfig.NginxConf.ResetStream | backend/src/inc/Service/NginxService.ts:39 | the stream context is emptied and the http context is untouched |
| NginxConfig.NginxConf.ResetHttp | backend/src/inc/Service/NginxService.ts:40 | the http context is emptied and the stream context is untouched |
| NginxConfig.NginxConf.AddStreamVariable | backend/src/inc/Service/NginxService.ts:42 | the directive is appended to the stream variables and nothing else changes |
| NginxConfig.NginxConf.AddUpstream | backend/src/inc/Service/NginxService.ts:139 | the upstream is appended and nothing else changes |
| NginxConfig.NginxConf.AddMap | backend/src/inc/Service/NginxService.ts:153 | the map is appended and nothing else changes |
| NginxConfig.NginxConf.AddStreamServer | backend/src/inc/Service/NginxService.ts:161 | the server is appended to the stream servers and nothing else changes |
| NginxConfig.NginxConf.AddHttpServer | backend/src/inc/Service/NginxService.ts:171 | the server is appended to the http servers and nothing else changes |
| RouteCompiler.StreamVisitsStep | backend/src/inc/Service/NginxService.ts:58-114 | one more listener adds its routes' visits when its type matches and nothing otherwise |
| RouteCompiler.PutStreamRoutesVisits | backend/src/inc/Service/NginxService.ts:68-85 | the inner stream loop puts the routes into the map exactly as grouping their visits does |
| RouteCompiler.PutHttpRoutesVisits | backend/src/inc/Service/NginxService.ts:95-112 | the inner http loop puts the routes into the map exactly as grouping their visits does |
| RouteCompiler.ReadStreamRoutes | backend/src/inc/Service/NginxService.ts:61-85 | reading one stream listener puts its routes with a found domain into the map |
| RouteCompiler.ReadHttpRoutes | backend/src/inc/Service/NginxService.ts:86-112 | reading one http listener puts its routes with a found domain into the map |
| RouteCompiler.ReadRoutes | backend/src/inc/Service/NginxService.ts:56-114 | the read phase yields exactly the stream and http groupings of the store |
| RouteCompiler.FillStreamPort | backend/src/inc/Service/NginxService.ts:119-161 | one port adds its new upstreams, its map and its server, and keeps the list of upstream names in step |
| RouteCompiler.FillStreamContext | backend/src/inc/Service/NginxService.ts:117-162 | the stream fill produces the specified stream context and leaves the http context alone |
| RouteCompiler.FillHttpPort | backend/src/inc/Service/NginxService.ts:165-182 | one port adds a named server per domain, then its default server |
| RouteCompiler.FillHttpContext | backend/src/inc/Service/NginxService.ts:164-183 | the http fill produces the specified http context and leaves the stream context alone |
| RouteCompiler.LoadConfig | backend/src/inc/Service/NginxService.ts:37-185 | with a configuration object present, it ends up holding exactly the compiled configuration of the store; with none, nothing happens |
| CompilerProperties.UpstreamNameInjective | backend/src/inc/Service/NginxService.ts:125-131 | two routes get the same upstream name only when their alias and domain id are both equal |
| CompilerProperties.StreamVarNameInjective | backend/src/inc/Service/NginxService.ts:120 | different ports get different map variables |
| CompilerProperties.DeduplicatedStep | backend/src/inc/Service/NginxService.ts:133-140 | adding a route's upstream only when its name is new keeps the list free of repeated names, covering every route and built from the first route with each name |
| CompilerProperties.DedupFromDeduplicated | backend/src/inc/Service/NginxService.ts:133-140 | the first-writer-wins fold over any route sequence yields such a list |
| CompilerProperties.PortUpstreamsFold | backend/src/inc/Service/NginxService.ts:124-140 | the per-port loop adds upstreams exactly as that fold over the port's routes does |
| CompilerProperties.StreamUpstreamsFold | backend/src/inc/Service/NginxService.ts:117-140 | the upstream list, shared across ports, is that fold over all routes in fill order |
| CompilerProperties.CompiledUpstreams | backend/src/inc/Service/NginxService.ts:117-140 | across the whole compile, each upstream name appears once and every route's name appears, and each upstream is built from the first route with its name |
| FillProperties.PortEntriesNamed | backend/src/inc/Service/NginxService.ts:142-146 | a port's named map entries are exactly its non-default domains, each bound to its route's upstream name |
| FillProperties.PortDefaultLast | backend/src/inc/Service/NginxService.ts:142-151 | the port's `defaultMapDomain` is set exactly when one of its routes is default, and then holds the last such route's upstream |
| FillProperties.PortMapDefaultKey | backend/src/inc/Service/NginxService.ts:142-153 | when no domain of the port is named `default`, its map has at most one `default` key; the key is there exactly when some route is default, is the last entry, and points at the last default route's upstream |
| FillProperties.DomainNamedDefault | backend/src/inc/Service/NginxService.ts:142-146 | a domain named `default` without a default route still puts a `default` key in the map, pointing at its own upstream |
| FillProperties.StreamMapsIndexed | backend/src/inc/Service/NginxService.ts:119-153 | the i-th map is the one of the i-th port |
| FillProperties.StreamServersIndexed | backend/src/inc/Service/NginxService.ts:155-161 | the i-th stream server is the one of the i-th port |
| FillProperties.CompiledStreamPorts | backend/src/inc/Service/NginxService.ts:42-161 | the stream context imports the njs module once and has one map and one server per grouped port; each server listens on its port and proxies to its port's map variable; no two servers share a port |
| FillProperties.NamedHttpServersIndexed | backend/src/inc/Service/NginxService.ts:165-172 | a port gets one named server per domain, in domain order |
| FillProperties.HttpServersGrouped | backend/src/inc/Service/NginxService.ts:164-183 | every http server is either the default server of a grouped port or a named server of a domain grouped on that port |
| FillProperties.HttpDefaultComplete | backend/src/inc/Service/NginxService.ts:175-182 | every grouped port gets its default server with the bad-gateway error page |
| FillProperties.HttpNamedComplete | backend/src/inc/Service/NginxService.ts:165-172 | every grouped (port, domain) pair gets its named server |
| FillProperties.HttpDefaultUnique | backend/src/inc/Service/NginxService.ts:174-182 | no two default servers listen on the same port |
| FillProperties.CompiledHttpComplete | backend/src/inc/Service/NginxService.ts:164-183 | the compiled http context has every grouped port's default server and every grouped pair's named server |
| FillProperties.CompiledHttpSound | backend/src/inc/Service/NginxService.ts:164-183 | the compiled http context has no other server, and exactly one default server per port |
| GroupingProperties.StreamReadGrouped | backend/src/inc/Service/NginxService.ts:61-85 | a stream route of a stream listener whose domain is found is grouped under the listener's port and the domain's name |
| GroupingProperties.StreamPortGrouped | backend/src/inc/Service/NginxService.ts:61-85 | a port gets stream output exactly when a stream listener on it has a route whose domain is found |
| GroupingProperties.StreamBoundRoute | backend/src/inc/Service/NginxService.ts:68-83 | the route bound to a (port, name) pair belongs to a stream listener on that port, and its domain is found and has that name |
| GroupingProperties.HttpReadGrouped | backend/src/inc/Service/NginxService.ts:86-112 | an http route of an http listener whose domain is found is grouped under the listener's port and the domain's name |
| GroupingProperties.HttpPortGrouped | backend/src/inc/Service/NginxService.ts:86-112 | a port gets http servers exactly when an http listener on it has a route whose domain is found |
| GroupingProperties.HttpBoundRoute | backend/src/inc/Service/NginxService.ts:95-110 | the route bound to a (port, name) pair belongs to an http listener on that port, and its domain is found and has that name |
| Supervisor.Start | backend/src/inc/Service/NginxService.ts:190-197 | the configuration is recompiled from the store, and the start command goes out against the recompiled configuration |
| Supervisor.Stop | backend/src/inc/Service/NginxService.ts:202-206 | a stop command is sent only when `isRun()` says the process runs; otherwise nothing is sent; the configuration is never touched |
| Supervisor.Reload | backend/src/inc/Service/NginxService.ts:211-218 | the configuration is recompiled from the store, and the reload command goes out against the recompiled configuration, whether or not the process runs |
| AddressAccess.FindEnabledBlacklist | backend/src/Routes/Njs/AddressAccess.ts:64-69 | the row found is an enabled blacklist row for the address, and none is found only when no such row exists |
| AddressAccess.FindEnabledWhitelist | backend/src/Routes/Njs/AddressAccess.ts:180-185 | the row found is an enabled whitelist row for the address, and none is found only when no such row exists |
| AddressAccess.BlacklistCheck | backend/src/Routes/Njs/AddressAccess.ts:62-83 | allows exactly when no enabled blacklist row has the address; a hit asks for that row's block count plus one |
| AddressAccess.WhitelistCheck | backend/src/Routes/Njs/AddressAccess.ts:177-199 | allows exactly when an enabled whitelist row has the address, and then asks for that row's access count plus one; a miss writes nothing |
| AddressAccess.ListCheck | backend/src/Routes/Njs/AddressAccess.ts:91-119 | an unknown listener denies; a listener with address check off allows; a `white` listener runs the whitelist check and any other type the blacklist check |
| AddressAccess.Decide | backend/src/Routes/Njs/AddressAccess.ts:38-54 | 200 exactly when the request is allowed, otherwise 401; an empty address denies without writing; id 0 is decided by the blacklist alone; any other id is decided by its listener |
| AddressAccess.AccessListenIdHeader | backend/src/Routes/Njs/AddressAccess.ts:36 | a header holding a listener id's digits selects that listener, and an empty header selects the global check |
| AddressAccess.WithBlock | backend/src/Routes/Njs/AddressAccess.ts:157-169 | the rows with the id get the new block count and time; every other row is unchanged |
| AddressAccess.WithAccess | backend/src/Routes/Njs/AddressAccess.ts:207-219 | the rows with the id get the new access count and time; every other row is unchanged |
| AddressAccess.AccessStore.UpdateBlacklistBlock | backend/src/Routes/Njs/AddressAccess.ts:157-169 | the blacklist is updated as above and the whitelist is untouched |
| AddressAccess.AccessStore.UpdateWhiteListAccess | backend/src/Routes/Njs/AddressAccess.ts:207-219 | the whitelist is updated as above and the blacklist is untouched |
| AddressAccess.AccessStore.HandleAccess | backend/src/Routes/Njs/AddressAccess.ts:27-55 | the status and the answer are those decided on the tables as they were, and the tables afterwards carry exactly the write the decision asked for |
| AddressAccess.GlobalCheckIgnoresListeners | backend/src/Routes/Njs/AddressAccess.ts:40 | with id 0, neither the listener table nor the whitelist affects the decision |
| AddressAccess.BlacklistListenerIsGlobal | backend/src/Routes/Njs/AddressAccess.ts:104-110 | an enabled listener of any type but `white` decides exactly as the global check does, because the blacklist is not partitioned by listener |
| AddressAccess.BumpKeepsVerdict | backend/src/Routes/Njs/AddressAccess.ts:78 | the counter write never changes the verdict that the same request would get next |
| AddressAccess.BumpSource | backend/src/Routes/Njs/AddressAccess.ts:78 | a blacklist write only comes from the blacklist check, and a whitelist write only from the whitelist check |
| AddressAccess.BlockBumpChangesHitRow | backend/src/Routes/Njs/AddressAccess.ts:78 | a blacklist hit changes exactly the hit row: its block count goes up by one and its last-block time becomes now |
| AddressAccess.AccessBumpChangesHitRow | backend/src/Routes/Njs/AddressAccess.ts:191 | a whitelist hit changes exactly the hit row: its access count goes up by one and its last-access time becomes now |
| AddressAccess.CountsNeverDecrease | backend/src/Routes/Njs/AddressAccess.ts:146 | after any request's write, no block or access count is lower than before, and no row is added or removed |
| RecordSave.Existing | backend/src/Routes/Main/Domain/Record/Save.ts:37-47 | a stored record is picked exactly when the request's id is non-zero and stored |
| RecordSave.FilledValue | backend/src/Routes/Main/Domain/Record/Save.ts:61-67 | a given value, or an unflagged record, keeps its value; an empty flagged value becomes the public IP when a non-empty one is known, and stays empty otherwise |
| RecordSave.Upsert | backend/src/Routes/Main/Domain/Record/Save.ts:32-74 | a known id is rewritten in place and keeps its domain; any other request adds exactly one record under a fresh id in the request's domain; the saved record carries the request's type, class, ttl and flag, and its value after the fill-in rule; every other record is unchanged |
| RecordSave.RecordTable.SaveDomainRecord | backend/src/Routes/Main/Domain/Record/Save.ts:32-74 | the table ends up as that upsert describes, the id counter stays ahead of every stored id, and the answer is status OK |
| RecordSave.PublicIpNotConsulted | backend/src/Routes/Main/Domain/Record/Save.ts:61 | when the value is given or the flag is off, the public IP does not affect the save |
| RecordSave.UnknownIdActsAsNew | backend/src/Routes/Main/Domain/Record/Save.ts:44-52 | a non-zero id that names no record saves exactly as id 0 does |
| RecordSave.ResaveIsNoOp | backend/src/Routes/Main/Domain/Record/Save.ts:37-58 | saving the same request again under the id the first save returned changes nothing |

## Left out

- Decimal.ParseIntOrZero: leading whitespace is ASCII space, tab, line feed, vertical tab, form feed and carriage return only; JavaScript also skips the other Unicode spaces. Numbers are unbounded, so the precision loss of very long digit strings is not modelled.
- The nginx classes (`NginxServer`, `Map`, `Upstream`, the server class) are not part of this model beyond the calls the service makes. Their configuration lists are modelled as append-only sequences. The text they serialise to is not modelled.
- The nginx process is represented only by the commands sent to it, each recorded with the configuration the server object held when it went out. The answer of `isRun()` at the moment `stop` asks is a parameter of `Supervisor.Stop`; `start` and `reload` ask it only to log, and the console messages are not modelled.
- RouteCompiler.LoadConfig: a compile is one uninterrupted step. In the source, `_loadConfig` awaits its database reads between resetting the configuration and filling it, so two overlapping `reload` calls can both reset and then both fill, emitting every upstream, map and server twice. That interleaving is not modelled.
- FillProperties.PortMapDefaultKey: requires that no domain of the port is named `default`. A domain with that name is put into the map under the key `default` like any other domain (`FillProperties.DomainNamedDefault`), so the map can then have a `default` key without a default route, or two `default` keys.
- Every database read is a read of one `Store` snapshot. Table order stands for the order the database returns rows in, and `findOne` takes the first matching row. Failed queries and rejected promises are not modelled.
- The http route row carries only the ids the compiler reads. The stream route row follows `NginxStream.ts`, plus the destination address and port the compiler reads. Enum values are constructors, not their stored numbers.
- AddressAccess.AccessStore.HandleAccess: the counter write runs to completion before the next request. The source starts it without waiting, so concurrent requests can interleave their writes. That interleaving is not modelled.
- AddressAccess.BlockBumpChangesHitRow: requires the blacklist ids to be unique, as a primary key guarantees. The same holds for AddressAccess.AccessBumpChangesHitRow and AddressAccess.CountsNeverDecrease.
- AddressAccess.CountsNeverDecrease: holds for requests handled one after another. The source does not increment a counter in the database; it writes the count it read at decision time plus one. Two overlapping requests can therefore lose a bump, or move a count back down.
- The current time, used for the last-block and last-access timestamps, is a parameter. The response object is reduced to the status returned. Logging, and the `remote_addr` and `type` arguments (used only in log lines), are left out.
- RecordSave.RecordTable.SaveDomainRecord: the public-IP lookup is a network call, so its answer is a parameter. The id the database generates for a new row is modelled as an auto-increment counter. Request schema validation is not modelled.

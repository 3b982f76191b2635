/**
 * The admission decision the proxy asks for before it lets a connection
 * through (`AddressAccess.access`): allow (200) or deny (401) one source
 * address on one listener, from the ip blacklist, the ip whitelist and the
 * listener table, plus the counter bookkeeping a blacklist or whitelist hit
 * causes.
 *
 * The decision tree is a pure function that also names the bookkeeping write
 * it asks for; `AccessStore` holds the two address tables and applies that
 * write in place. The current time is a parameter.
 */
module AddressAccess {
  import opened Options
  import opened Decimal
  import opened Entities

  /** A row of `ip_blacklist`. */
  datatype BlacklistEntry = BlacklistEntry(id: nat, ip: string, disable: bool, countBlock: nat, lastBlock: int)

  /** A row of `ip_whitelist`. */
  datatype WhitelistEntry = WhitelistEntry(id: nat, ip: string, disable: bool, countAccess: nat, lastAccess: int)

  /** The counter write a check asks for (`_updateBlacklistBlock` / `_updateWhiteListAccess`), if any. */
  datatype Bump = NoBump | BumpBlock(blacklistId: nat, newCount: nat) | BumpAccess(whitelistId: nat, newCount: nat)

  /** The outcome of one of the checks: whether it allows, and the write it asks for. */
  datatype Check = Check(allow: bool, bump: Bump)

  /** What `access` answers: the status sent, the value returned, and the write it started. */
  datatype Decision = Decision(status: nat, allowed: bool, bump: Bump)

  const STATUS_OK: nat := 200
  const STATUS_UNAUTHORIZED: nat := 401

  // ---------------------------------------------------------------------------
  // Lookups

  /** `findOne({where: {ip, disable: false}})` on the blacklist: the first enabled row for `ip`. */
  function FindEnabledBlacklist(rows: seq<BlacklistEntry>, ip: string): (r: Option<BlacklistEntry>)
    ensures r.Some? ==> r.value in rows && r.value.ip == ip && !r.value.disable
    ensures r.None? ==> forall e :: e in rows ==> e.ip != ip || e.disable
  {
    if rows == [] then None
    else if rows[0].ip == ip && !rows[0].disable then Some(rows[0])
    else FindEnabledBlacklist(rows[1..], ip)
  }

  /** `findOne({where: {ip, disable: false}})` on the whitelist: the first enabled row for `ip`. */
  function FindEnabledWhitelist(rows: seq<WhitelistEntry>, ip: string): (r: Option<WhitelistEntry>)
    ensures r.Some? ==> r.value in rows && r.value.ip == ip && !r.value.disable
    ensures r.None? ==> forall e :: e in rows ==> e.ip != ip || e.disable
  {
    if rows == [] then None
    else if rows[0].ip == ip && !rows[0].disable then Some(rows[0])
    else FindEnabledWhitelist(rows[1..], ip)
  }

  // ---------------------------------------------------------------------------
  // The decision tree

  /**
   * `_globalCheckBlacklist`, and `_listCheckBlackList`, which runs the same
   * test on the same table and ignores the listener: allow exactly when no
   * enabled blacklist row has the address; on a hit, ask for that row's block
   * counter to go up by one.
   */
  function BlacklistCheck(blacklist: seq<BlacklistEntry>, ip: string): (c: Check)
    ensures c.allow <==> forall e :: e in blacklist ==> e.ip != ip || e.disable
    ensures c.allow ==> c.bump == NoBump
    ensures !c.allow ==>
      exists e :: (e in blacklist && e.ip == ip && !e.disable && c.bump == BumpBlock(e.id, e.countBlock + 1))
  {
    match FindEnabledBlacklist(blacklist, ip)
    case None => Check(true, NoBump)
    case Some(e) => Check(false, BumpBlock(e.id, e.countBlock + 1))
  }

  /**
   * `_listCheckWhiteList`: allow exactly when an enabled whitelist row has the
   * address, and then ask for that row's access counter to go up by one; a
   * miss writes nothing.
   */
  function WhitelistCheck(whitelist: seq<WhitelistEntry>, ip: string): (c: Check)
    ensures c.allow <==> exists e :: e in whitelist && e.ip == ip && !e.disable
    ensures !c.allow ==> c.bump == NoBump
    ensures c.allow ==>
      exists e :: (e in whitelist && e.ip == ip && !e.disable && c.bump == BumpAccess(e.id, e.countAccess + 1))
  {
    match FindEnabledWhitelist(whitelist, ip)
    case None => Check(false, NoBump)
    case Some(e) => Check(true, BumpAccess(e.id, e.countAccess + 1))
  }

  /**
   * `_listCheck`: an unknown listener denies; a listener without address
   * check allows; otherwise a `white` listener runs the whitelist check and
   * any other type the (global) blacklist check.
   */
  function ListCheck(listens: seq<Listen>, listenId: int, blacklist: seq<BlacklistEntry>,
                     whitelist: seq<WhitelistEntry>, ip: string): (c: Check)
    ensures FindListen(listens, listenId).None? ==> c == Check(false, NoBump)
    ensures FindListen(listens, listenId).Some? && !FindListen(listens, listenId).value.enableAddressCheck
      ==> c == Check(true, NoBump)
    ensures FindListen(listens, listenId).Some? && FindListen(listens, listenId).value.enableAddressCheck
      ==> c == if FindListen(listens, listenId).value.addressCheckType == WhiteCheck
               then WhitelistCheck(whitelist, ip) else BlacklistCheck(blacklist, ip)
  {
    match FindListen(listens, listenId)
    case None => Check(false, NoBump)
    case Some(l) =>
      if !l.enableAddressCheck then Check(true, NoBump)
      else if l.addressCheckType == WhiteCheck then WhitelistCheck(whitelist, ip)
      else BlacklistCheck(blacklist, ip)
  }

  function Verdict(c: Check): Decision {
    if c.allow then Decision(STATUS_OK, true, c.bump) else Decision(STATUS_UNAUTHORIZED, false, c.bump)
  }

  /**
   * The decision `access` takes once the listener id is read: an empty
   * address denies without consulting any table; id 0 runs the global
   * blacklist check, any other id the listener check. The value returned is
   * true exactly when 200 was sent.
   */
  function Decide(listenId: int, ip: string, listens: seq<Listen>,
                  blacklist: seq<BlacklistEntry>, whitelist: seq<WhitelistEntry>): (d: Decision)
    ensures d.allowed <==> d.status == STATUS_OK
    ensures !d.allowed ==> d.status == STATUS_UNAUTHORIZED
    ensures ip == "" ==> d == Decision(STATUS_UNAUTHORIZED, false, NoBump)
    // id 0: the global blacklist check alone
    ensures ip != "" && listenId == 0 ==>
      && (d.allowed <==> forall e :: e in blacklist ==> e.ip != ip || e.disable)
      && d.bump == BlacklistCheck(blacklist, ip).bump
    // any other id: the listener decides
    ensures ip != "" && listenId != 0 && FindListen(listens, listenId).None?
      ==> d == Decision(STATUS_UNAUTHORIZED, false, NoBump)
    ensures ip != "" && listenId != 0 && FindListen(listens, listenId).Some?
      && !FindListen(listens, listenId).value.enableAddressCheck
      ==> d == Decision(STATUS_OK, true, NoBump)
    ensures ip != "" && listenId != 0 && FindListen(listens, listenId).Some?
      && FindListen(listens, listenId).value.enableAddressCheck
      && FindListen(listens, listenId).value.addressCheckType == WhiteCheck
      ==> && (d.allowed <==> exists e :: e in whitelist && e.ip == ip && !e.disable)
          && d.bump == WhitelistCheck(whitelist, ip).bump
    ensures ip != "" && listenId != 0 && FindListen(listens, listenId).Some?
      && FindListen(listens, listenId).value.enableAddressCheck
      && FindListen(listens, listenId).value.addressCheckType != WhiteCheck
      ==> && (d.allowed <==> forall e :: e in blacklist ==> e.ip != ip || e.disable)
          && d.bump == BlacklistCheck(blacklist, ip).bump
  {
    if ip == "" then Decision(STATUS_UNAUTHORIZED, false, NoBump)
    else if listenId == 0 then Verdict(BlacklistCheck(blacklist, ip))
    else Verdict(ListCheck(listens, listenId, blacklist, whitelist, ip))
  }

  /** `access`: the listener id header is read with `parseInt(.., 10) || 0` (no digits gives the global id 0). */
  function Access(listenIdHeader: string, ip: string, listens: seq<Listen>,
                  blacklist: seq<BlacklistEntry>, whitelist: seq<WhitelistEntry>): Decision
  {
    Decide(ParseIntOrZero(listenIdHeader), ip, listens, blacklist, whitelist)
  }

  // ---------------------------------------------------------------------------
  // The bookkeeping writes

  /** `UPDATE ip_blacklist SET last_block = now, count_block = count WHERE id = id`. */
  function WithBlock(rows: seq<BlacklistEntry>, id: nat, count: nat, now: int): (r: seq<BlacklistEntry>)
    ensures |r| == |rows|
    ensures forall i :: 0 <= i < |rows| && rows[i].id != id ==> r[i] == rows[i]
    ensures forall i :: 0 <= i < |rows| && rows[i].id == id ==>
      r[i] == BlacklistEntry(id, rows[i].ip, rows[i].disable, count, now)
  {
    seq(|rows|, i requires 0 <= i < |rows| =>
      if rows[i].id == id then rows[i].(countBlock := count, lastBlock := now) else rows[i])
  }

  /** `UPDATE ip_whitelist SET last_access = now, count_access = count WHERE id = id`. */
  function WithAccess(rows: seq<WhitelistEntry>, id: nat, count: nat, now: int): (r: seq<WhitelistEntry>)
    ensures |r| == |rows|
    ensures forall i :: 0 <= i < |rows| && rows[i].id != id ==> r[i] == rows[i]
    ensures forall i :: 0 <= i < |rows| && rows[i].id == id ==>
      r[i] == WhitelistEntry(id, rows[i].ip, rows[i].disable, count, now)
  {
    seq(|rows|, i requires 0 <= i < |rows| =>
      if rows[i].id == id then rows[i].(countAccess := count, lastAccess := now) else rows[i])
  }

  /** The blacklist once `bump` has run. */
  function BlacklistAfter(rows: seq<BlacklistEntry>, bump: Bump, now: int): seq<BlacklistEntry> {
    if bump.BumpBlock? then WithBlock(rows, bump.blacklistId, bump.newCount, now) else rows
  }

  /** The whitelist once `bump` has run. */
  function WhitelistAfter(rows: seq<WhitelistEntry>, bump: Bump, now: int): seq<WhitelistEntry> {
    if bump.BumpAccess? then WithAccess(rows, bump.whitelistId, bump.newCount, now) else rows
  }

  /** The two address tables the admission endpoint reads and bumps. */
  class AccessStore {
    var blacklist: seq<BlacklistEntry>
    var whitelist: seq<WhitelistEntry>

    constructor (blacklist: seq<BlacklistEntry>, whitelist: seq<WhitelistEntry>)
      ensures this.blacklist == blacklist && this.whitelist == whitelist
    {
      this.blacklist := blacklist;
      this.whitelist := whitelist;
    }

    /** `_updateBlacklistBlock`: set the row's block counter and last-block time. */
    method UpdateBlacklistBlock(ipBlacklistId: nat, newBlockCount: nat, now: int)
      modifies this
      ensures blacklist == WithBlock(old(blacklist), ipBlacklistId, newBlockCount, now)
      ensures whitelist == old(whitelist)
    {
      blacklist := WithBlock(blacklist, ipBlacklistId, newBlockCount, now);
    }

    /** `_updateWhiteListAccess`: set the row's access counter and last-access time. */
    method UpdateWhiteListAccess(ipWhitelistId: nat, newAccessCount: nat, now: int)
      modifies this
      ensures whitelist == WithAccess(old(whitelist), ipWhitelistId, newAccessCount, now)
      ensures blacklist == old(blacklist)
    {
      whitelist := WithAccess(whitelist, ipWhitelistId, newAccessCount, now);
    }

    /**
     * One admission request: decide on the tables as they are, then run the
     * write the decision asks for (the source starts it without waiting; here
     * it completes before the next request).
     */
    method HandleAccess(listenIdHeader: string, ip: string, listens: seq<Listen>, now: int)
      returns (status: nat, allowed: bool)
      modifies this
      ensures status == Access(listenIdHeader, ip, listens, old(blacklist), old(whitelist)).status
      ensures allowed == Access(listenIdHeader, ip, listens, old(blacklist), old(whitelist)).allowed
      ensures blacklist == BlacklistAfter(old(blacklist), Access(listenIdHeader, ip, listens, old(blacklist), old(whitelist)).bump, now)
      ensures whitelist == WhitelistAfter(old(whitelist), Access(listenIdHeader, ip, listens, old(blacklist), old(whitelist)).bump, now)
    {
      var d := Access(listenIdHeader, ip, listens, blacklist, whitelist);
      status, allowed := d.status, d.allowed;
      match d.bump {
        case NoBump =>
        case BumpBlock(id, count) => UpdateBlacklistBlock(id, count, now);
        case BumpAccess(id, count) => UpdateWhiteListAccess(id, count, now);
      }
    }
  }

  // ---------------------------------------------------------------------------
  // Properties of the decision across requests

  /**
   * `access` reads the listener id header in decimal: a header holding the
   * decimal digits of an id selects that listener, and an absent (empty)
   * header selects the global check.
   */
  lemma AccessListenIdHeader(n: nat, ip: string, listens: seq<Listen>,
                             blacklist: seq<BlacklistEntry>, whitelist: seq<WhitelistEntry>)
    ensures Access(NatToString(n), ip, listens, blacklist, whitelist) == Decide(n, ip, listens, blacklist, whitelist)
    ensures Access("", ip, listens, blacklist, whitelist) == Decide(0, ip, listens, blacklist, whitelist)
  {
    ParseNatToString(n);
  }

  /** With id 0 neither the listener table nor the whitelist is consulted. */
  lemma GlobalCheckIgnoresListeners(ip: string, listens1: seq<Listen>, listens2: seq<Listen>,
                                    blacklist: seq<BlacklistEntry>, whitelist1: seq<WhitelistEntry>,
                                    whitelist2: seq<WhitelistEntry>)
    ensures Decide(0, ip, listens1, blacklist, whitelist1) == Decide(0, ip, listens2, blacklist, whitelist2)
  {
  }

  /**
   * An enabled listener of any type but `white` decides exactly as the global
   * check (id 0) does: the blacklist is not partitioned by listener.
   */
  lemma BlacklistListenerIsGlobal(listenId: int, ip: string, listens: seq<Listen>,
                                  blacklist: seq<BlacklistEntry>, whitelist: seq<WhitelistEntry>)
    requires listenId != 0 && FindListen(listens, listenId).Some?
    requires FindListen(listens, listenId).value.enableAddressCheck
    requires FindListen(listens, listenId).value.addressCheckType != WhiteCheck
    ensures Decide(listenId, ip, listens, blacklist, whitelist) == Decide(0, ip, listens, blacklist, whitelist)
  {
  }

  /**
   * The bookkeeping write never changes the verdict: the same request over
   * the tables it leaves behind is allowed or denied as before, since rows
   * keep their addresses and enabled flags.
   */
  lemma BumpKeepsVerdict(listenId: int, ip: string, listens: seq<Listen>,
                         blacklist: seq<BlacklistEntry>, whitelist: seq<WhitelistEntry>, now: int)
    ensures Decide(listenId, ip, listens,
                   BlacklistAfter(blacklist, Decide(listenId, ip, listens, blacklist, whitelist).bump, now),
                   WhitelistAfter(whitelist, Decide(listenId, ip, listens, blacklist, whitelist).bump, now)).allowed
         == Decide(listenId, ip, listens, blacklist, whitelist).allowed
  {
  }

  ghost predicate UniqueBlacklistIds(rows: seq<BlacklistEntry>) {
    forall i, j :: 0 <= i < j < |rows| ==> rows[i].id != rows[j].id
  }

  ghost predicate UniqueWhitelistIds(rows: seq<WhitelistEntry>) {
    forall i, j :: 0 <= i < j < |rows| ==> rows[i].id != rows[j].id
  }

  /** A blacklist write only ever comes from the blacklist check, and a whitelist write from the whitelist check. */
  lemma BumpSource(listenId: int, ip: string, listens: seq<Listen>,
                   blacklist: seq<BlacklistEntry>, whitelist: seq<WhitelistEntry>)
    ensures Decide(listenId, ip, listens, blacklist, whitelist).bump.BumpBlock?
      ==> Decide(listenId, ip, listens, blacklist, whitelist).bump == BlacklistCheck(blacklist, ip).bump
    ensures Decide(listenId, ip, listens, blacklist, whitelist).bump.BumpAccess?
      ==> Decide(listenId, ip, listens, blacklist, whitelist).bump == WhitelistCheck(whitelist, ip).bump
  {
  }

  lemma WithBlockOneRow(rows: seq<BlacklistEntry>, i: nat, now: int)
    requires UniqueBlacklistIds(rows) && i < |rows|
    ensures WithBlock(rows, rows[i].id, rows[i].countBlock + 1, now)
         == rows[i := rows[i].(countBlock := rows[i].countBlock + 1, lastBlock := now)]
  {
  }

  lemma WithAccessOneRow(rows: seq<WhitelistEntry>, i: nat, now: int)
    requires UniqueWhitelistIds(rows) && i < |rows|
    ensures WithAccess(rows, rows[i].id, rows[i].countAccess + 1, now)
         == rows[i := rows[i].(countAccess := rows[i].countAccess + 1, lastAccess := now)]
  {
  }

  /**
   * With the table's ids unique, the write a blacklist hit asks for changes exactly
   * one row: the enabled row for the address, whose block counter goes up by
   * one and whose last-block time becomes `now`.
   */
  lemma BlockBumpChangesHitRow(blacklist: seq<BlacklistEntry>, ip: string, now: int)
    requires UniqueBlacklistIds(blacklist)
    requires !BlacklistCheck(blacklist, ip).allow
    ensures exists i :: (0 <= i < |blacklist| && blacklist[i].ip == ip && !blacklist[i].disable &&
      BlacklistAfter(blacklist, BlacklistCheck(blacklist, ip).bump, now)
      == blacklist[i := blacklist[i].(countBlock := blacklist[i].countBlock + 1, lastBlock := now)])
  {
    var e := FindEnabledBlacklist(blacklist, ip).value;
    var i :| 0 <= i < |blacklist| && blacklist[i] == e;
    WithBlockOneRow(blacklist, i, now);
    assert BlacklistAfter(blacklist, BlacklistCheck(blacklist, ip).bump, now) == blacklist[i := blacklist[i].(countBlock := blacklist[i].countBlock + 1, lastBlock := now)];
  }

  /**
   * With the table's ids unique, the write a whitelist hit asks for changes exactly
   * one row: the enabled row for the address, whose access counter goes up by
   * one and whose last-access time becomes `now`.
   */
  lemma AccessBumpChangesHitRow(whitelist: seq<WhitelistEntry>, ip: string, now: int)
    requires UniqueWhitelistIds(whitelist)
    requires WhitelistCheck(whitelist, ip).allow
    ensures exists i :: (0 <= i < |whitelist| && whitelist[i].ip == ip && !whitelist[i].disable &&
      WhitelistAfter(whitelist, WhitelistCheck(whitelist, ip).bump, now)
      == whitelist[i := whitelist[i].(countAccess := whitelist[i].countAccess + 1, lastAccess := now)])
  {
    var e := FindEnabledWhitelist(whitelist, ip).value;
    var i :| 0 <= i < |whitelist| && whitelist[i] == e;
    WithAccessOneRow(whitelist, i, now);
    assert WhitelistAfter(whitelist, WhitelistCheck(whitelist, ip).bump, now) == whitelist[i := whitelist[i].(countAccess := whitelist[i].countAccess + 1, lastAccess := now)];
  }

  /**
   * With the tables' ids unique, the write a request causes never lowers a
   * counter: every row keeps or raises its block and access counts, and no row
   * is added or removed.
   */
  lemma CountsNeverDecrease(listenId: int, ip: string, listens: seq<Listen>,
                            blacklist: seq<BlacklistEntry>, whitelist: seq<WhitelistEntry>, now: int)
    requires UniqueBlacklistIds(blacklist) && UniqueWhitelistIds(whitelist)
    ensures var after := BlacklistAfter(blacklist, Decide(listenId, ip, listens, blacklist, whitelist).bump, now);
      |after| == |blacklist| && forall i :: 0 <= i < |blacklist| ==> after[i].countBlock >= blacklist[i].countBlock
    ensures var after := WhitelistAfter(whitelist, Decide(listenId, ip, listens, blacklist, whitelist).bump, now);
      |after| == |whitelist| && forall i :: 0 <= i < |whitelist| ==> after[i].countAccess >= whitelist[i].countAccess
  {
  }
}

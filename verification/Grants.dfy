/**
 Single-use grants (backend/app/gateway/internal_auth.py): worker processes share
 a directory; one writes a grant as a file, another redeems it by renaming it away.

 The protocol is a state machine of single file operations. A run is any sequence
 of them, by any number of workers, with a crash possible between any two. Main
 results, for every run: a grant is accepted at most once (`AcceptedOnce`); an
 accepted request has the digest of the one its grant was issued for
 (`AcceptedAsIssued`), which is another request only where a NUL makes that one
 ambiguous (`SharesIff`, `AnotherLetInIff`); and a grant that could still be
 redeemed is still there (`KeptUntilExpiry`).
*/
module Grants {
  import opened Wrappers

  type Byte = x: int | 0 <= x < 256
  type Bytes = seq<Byte>
  type Nonce = string
  type Digest(==, !new)
  type Process = nat

  datatype Request = Request(kind: string, verb: string, path: string, body: Bytes)

  /** The host's text and hash functions. */
  datatype Host = Host(upper: string -> string, utf8: string -> Bytes, sha256: Bytes -> Digest)

  // ----- the digest of a request -----

  function Encode(host: Host, r: Request): Bytes {
    host.utf8(r.kind) + [0] + (host.utf8(host.upper(r.verb)) + [0] + (host.utf8(r.path) + [0] + r.body))
  }

  function RequestDigest(host: Host, r: Request): Digest {
    host.sha256(Encode(host, r))
  }

  /** No two inputs collide: what SHA-256 and UTF-8 are taken to give. */
  ghost predicate Faithful(host: Host) {
    && (forall a, b | host.sha256(a) == host.sha256(b) :: a == b)
    && (forall a, b | host.utf8(a) == host.utf8(b) :: a == b)
  }

  /** The same request, but for the case of its method. */
  ghost predicate SameRequest(host: Host, a: Request, b: Request) {
    a.kind == b.kind && host.upper(a.verb) == host.upper(b.verb) && a.path == b.path && a.body == b.body
  }

  predicate NulFree(b: Bytes) {
    0 !in b
  }

  predicate PlainHead(host: Host, r: Request) {
    NulFree(host.utf8(r.kind)) && NulFree(host.utf8(host.upper(r.verb)))
  }

  lemma CutAtNul(a: Bytes, x: Bytes, b: Bytes, y: Bytes)
    requires NulFree(a) && NulFree(b) && a + [0] + x == b + [0] + y
    ensures a == b && x == y
  {
    var s := a + [0] + x;
    assert s[|a|] == s[|b|] == 0;
    assert a == s[..|a|] == b;
    assert x == s[|a| + 1..] == y;
  }

  lemma SameTail(host: Host, a: Request, b: Request)
    requires Faithful(host) && PlainHead(host, a) && PlainHead(host, b)
             && RequestDigest(host, a) == RequestDigest(host, b)
    ensures a.kind == b.kind && host.upper(a.verb) == host.upper(b.verb)
    ensures host.utf8(a.path) + [0] + a.body == host.utf8(b.path) + [0] + b.body
  {
    var a3, b3 := host.utf8(a.path) + [0] + a.body, host.utf8(b.path) + [0] + b.body;
    var a2, b2 := host.utf8(host.upper(a.verb)) + [0] + a3, host.utf8(host.upper(b.verb)) + [0] + b3;
    CutAtNul(host.utf8(a.kind), a2, host.utf8(b.kind), b2);
    CutAtNul(host.utf8(host.upper(a.verb)), a3, host.utf8(host.upper(b.verb)), b3);
  }

  /** The digest tells two requests apart, when no kind, method or path holds a NUL. */
  lemma DigestBindsRequest(host: Host, a: Request, b: Request)
    requires Faithful(host) && PlainHead(host, a) && PlainHead(host, b)
    requires NulFree(host.utf8(a.path)) && NulFree(host.utf8(b.path))
    ensures RequestDigest(host, a) == RequestDigest(host, b) <==> SameRequest(host, a, b)
  {
    if RequestDigest(host, a) == RequestDigest(host, b) {
      SameTail(host, a, b);
      CutAtNul(host.utf8(a.path), a.body, host.utf8(b.path), b.body);
    }
  }

  /** What stands before a NUL in a text's bytes is itself a text's: so it is in UTF-8. */
  ghost predicate CutsAtNul(host: Host) {
    forall s, i | 0 <= i < |host.utf8(s)| && host.utf8(s)[i] == 0 :: exists cut :: host.utf8(cut) == host.utf8(s)[..i]
  }

  /** Another request with a plain head has the same digest. */
  ghost predicate Shares(host: Host, r: Request, other: Request) {
    PlainHead(host, other) && RequestDigest(host, other) == RequestDigest(host, r) && !SameRequest(host, other, r)
  }

  /** The path and the body up to a NUL at `k` are the path `longer`. */
  predicate Lengthens(host: Host, r: Request, k: nat, longer: string) {
    k < |r.body| && r.body[k] == 0 && host.utf8(longer) == host.utf8(r.path) + [0] + r.body[..k]
  }

  /** A NUL in the path, or one in the body that a longer path may run to. */
  ghost predicate Ambiguous(host: Host, r: Request) {
    !NulFree(host.utf8(r.path)) || exists k, longer :: Lengthens(host, r, k, longer)
  }

  /** A NUL in the path: `cut` is the path up to it, with the rest moved to the front
      of the body. */
  lemma NulInPathCollides(host: Host, r: Request, cut: string, i: nat)
    requires i < |host.utf8(r.path)| && host.utf8(r.path)[i] == 0 && host.utf8(cut) == host.utf8(r.path)[..i]
    ensures var other := r.(path := cut, body := host.utf8(r.path)[i + 1..] + [0] + r.body);
            RequestDigest(host, other) == RequestDigest(host, r) && !SameRequest(host, other, r)
  {
    var p := host.utf8(r.path);
    assert p[..i] + [0] + (p[i + 1..] + [0] + r.body) == p + [0] + r.body;
    assert |host.utf8(cut)| < |p|;
  }

  /** A NUL in the body, whatever the path: the front of the body moved to the path. */
  lemma NulInBodyCollides(host: Host, r: Request, k: nat, longer: string)
    requires Lengthens(host, r, k, longer)
    ensures var other := r.(path := longer, body := r.body[k + 1..]);
            RequestDigest(host, other) == RequestDigest(host, r) && !SameRequest(host, other, r)
  {
    assert r.body == r.body[..k] + [0] + r.body[k + 1..];
    assert host.utf8(longer) + [0] + r.body[k + 1..] == host.utf8(r.path) + [0] + r.body;
    assert |host.utf8(longer)| > |host.utf8(r.path)|;
  }

  lemma FirstNul(b: Bytes) returns (i: nat)
    requires !NulFree(b)
    ensures i < |b| && b[i] == 0 && NulFree(b[..i])
  {
    i := 0;
    while b[i] != 0
      invariant i < |b| && NulFree(b[..i]) && !NulFree(b[i..])
      decreases |b| - i
    {
      i := i + 1;
    }
  }

  /** A request is told apart from every request whose path is free of NULs exactly
      when its own path is. */
  lemma ToldApartIff(host: Host, r: Request)
    requires Faithful(host) && CutsAtNul(host) && PlainHead(host, r)
    ensures (forall other: Request | NulFree(host.utf8(other.path)) :: !Shares(host, r, other))
            <==> NulFree(host.utf8(r.path))
  {
    if NulFree(host.utf8(r.path)) {
      forall other: Request | NulFree(host.utf8(other.path)) ensures !Shares(host, r, other) {
        if PlainHead(host, other) {
          DigestBindsRequest(host, other, r);
        }
      }
    } else {
      var i := FirstNul(host.utf8(r.path));
      var cut :| host.utf8(cut) == host.utf8(r.path)[..i];
      NulInPathCollides(host, r, cut, i);
      assert Shares(host, r, r.(path := cut, body := host.utf8(r.path)[i + 1..] + [0] + r.body));
    }
  }

  lemma EqualCuts(a: Bytes, x: Bytes, b: Bytes, y: Bytes)
    ensures a + [0] + x == b + [0] + y && |a| == |b| ==> a == b && x == y
  {
    var s, t := a + [0] + x, b + [0] + y;
    assert a == s[..|a|] && x == s[|a| + 1..] && b == t[..|b|] && y == t[|b| + 1..];
  }

  /** And from every request at all exactly when it is not ambiguous. */
  lemma SharesIff(host: Host, r: Request)
    requires Faithful(host) && CutsAtNul(host) && PlainHead(host, r)
    ensures (exists other :: Shares(host, r, other)) <==> Ambiguous(host, r)
  {
    var p := host.utf8(r.path);
    if !NulFree(p) {
      ToldApartIff(host, r);
    } else if k, longer :| Lengthens(host, r, k, longer) {
      NulInBodyCollides(host, r, k, longer);
      assert Shares(host, r, r.(path := longer, body := r.body[k + 1..]));
    }
    forall other | Shares(host, r, other) ensures Ambiguous(host, r) {
      SameTail(host, other, r);
      var q := host.utf8(other.path);
      var tail := p + [0] + r.body;
      EqualCuts(p, r.body, q, other.body);
      if |q| < |p| {
        assert p[|q|] == tail[|q|] == 0;
      } else {
        var k := |q| - |p| - 1;
        assert r.body[k] == tail[|q|] == 0;
        assert q == tail[..|q|] == p + [0] + r.body[..k];
        assert Lengthens(host, r, k, other.path);
      }
    }
  }

  // ----- the shared directory -----

  const TTL := 600.0

  datatype File = Temporary(nonce: Nonce) | Published(nonce: Nonce) | Claimed(nonce: Nonce, suffix: string)

  /** The name a file has in the directory: `.n.tmp`, `n.grant` or `.n.suffix.redeemed`. */
  function NameOf(f: File): string {
    if f.Published? then f.nonce + "." + "grant" else "." + (f.nonce + "." + Extension(f))
  }

  function Extension(f: File): string {
    if f.Claimed? then f.suffix + "." + "redeemed" else "tmp"
  }

  predicate IsUrlSafe(c: char) {
    'A' <= c <= 'Z' || 'a' <= c <= 'z' || '0' <= c <= '9' || c == '_' || c == '-'
  }

  predicate IsNonce(s: string) {
    32 <= |s| <= 64 && forall c <- s :: IsUrlSafe(c)
  }

  /** What the pattern admits: its `$` also stands before one last newline. */
  predicate NonceMatches(s: string) {
    IsNonce(s) || (s != "" && s[|s| - 1] == '\n' && IsNonce(s[..|s| - 1]))
  }

  datatype Payload = Payload(digest: Digest, expires: real)

  /** A file's contents (nothing yet, just after it is created) and when it was written. */
  datatype Inode = Inode(payload: Option<Payload>, modified: real)

  datatype IssueStage = Purging | FoundStale(stale: Nonce) | Created | Written

  datatype RedeemStage = Asked | Holding(suffix: string) | HasRead(suffix: string, got: Option<Payload>)
    | Checking(got: Option<Payload>)

  datatype Work =
    | Issuing(nonce: Nonce, issue: IssueStage)
    | Redeeming(nonce: Nonce, request: Request, redeem: RedeemStage)

  datatype Issue = Issue(request: Request, at: real)

  datatype Redemption = Redemption(nonce: Nonce, request: Request, at: real)

  /** The directory, the workers and the clock; and, of the past: what was issued,
      published and claimed, and every redemption that said yes. */
  datatype State = State(
    dir: map<File, Inode>,
    work: map<Process, Work>,
    clock: real,
    issued: map<Nonce, Issue>,
    published: set<Nonce>,
    claimed: set<Nonce>,
    accepted: seq<Redemption>)

  const INIT := State(map[], map[], 0.0, map[], {}, {}, [])

  /** One file operation of one worker, a crash, or time passing. A nonce is random:
      it is never drawn twice. Each read or unlink may fail. */
  datatype Action =
    | StartIssue(p: Process, nonce: Nonce, request: Request)
    | StatOld(p: Process, nonce: Nonce)
    | UnlinkOld(p: Process)
    | CreateTemporary(p: Process)
    | WriteTemporary(p: Process)
    | Publish(p: Process)
    | StartRedeem(p: Process, nonce: Nonce, request: Request)
    | Claim(p: Process, suffix: string)
    | ReadClaimed(p: Process, readable: bool)
    | UnlinkClaimed(p: Process, unlinked: bool)
    | Check(p: Process)
    | Crash(p: Process)
    | Tick(later: real)

  function Without(s: State, p: Process): State {
    s.(work := s.work - {p})
  }

  function At(s: State, p: Process, w: Work): State {
    s.(work := s.work[p := w])
  }

  function PayloadFor(host: Host, i: Issue): Payload {
    Payload(RequestDigest(host, i.request), i.at + TTL)
  }

  predicate Issues(s: State, p: Process) {
    p in s.work && s.work[p].Issuing? && s.work[p].nonce in s.issued
  }

  predicate Redeems(s: State, p: Process) {
    p in s.work && s.work[p].Redeeming?
  }

  // Each operation, where the worker is not at it, leaves the state alone.

  function StartIssuing(s: State, p: Process, nonce: Nonce, request: Request): State {
    if p in s.work || nonce in s.issued || !IsNonce(nonce) then s
    else At(s.(issued := s.issued[nonce := Issue(request, s.clock)]), p, Issuing(nonce, Purging))
  }

  /** A file is stale when it is older than a grant lives, at the time the issuer began. */
  function StatOldFile(s: State, p: Process, n: Nonce): State {
    if !Issues(s, p) || !s.work[p].issue.Purging? || Published(n) !in s.dir then s
    else if s.issued[s.work[p].nonce].at - s.dir[Published(n)].modified > TTL
    then At(s, p, s.work[p].(issue := FoundStale(n))) else s
  }

  function UnlinkOldFile(s: State, p: Process): State {
    if !Issues(s, p) || !s.work[p].issue.FoundStale? then s
    else At(s.(dir := s.dir - {Published(s.work[p].issue.stale)}), p, s.work[p].(issue := Purging))
  }

  function CreateFile(s: State, p: Process): State {
    if !Issues(s, p) || !s.work[p].issue.Purging? then s
    else
      var file := Temporary(s.work[p].nonce);
      if file in s.dir then Without(s, p)
      else At(s.(dir := s.dir[file := Inode(None, s.clock)]), p, s.work[p].(issue := Created))
  }

  function WriteFile(host: Host, s: State, p: Process): State {
    if !Issues(s, p) || !s.work[p].issue.Created? then s
    else
      var nonce := s.work[p].nonce;
      var file := Temporary(nonce);
      if file !in s.dir then s
      else At(s.(dir := s.dir[file := Inode(Some(PayloadFor(host, s.issued[nonce])), s.clock)]), p,
              s.work[p].(issue := Written))
  }

  /** The rename that makes the grant redeemable. */
  function PublishFile(s: State, p: Process): State {
    if !Issues(s, p) || !s.work[p].issue.Written? then s
    else
      var nonce := s.work[p].nonce;
      if Temporary(nonce) !in s.dir then s
      else Without(s.(dir := (s.dir - {Temporary(nonce)})[Published(nonce) := s.dir[Temporary(nonce)]],
                      published := s.published + {nonce}), p)
  }

  function StartRedeeming(s: State, p: Process, nonce: Nonce, request: Request): State {
    if p in s.work || !NonceMatches(nonce) then s else At(s, p, Redeeming(nonce, request, Asked))
  }

  /** The rename that claims the grant: it fails where the file is gone. */
  function ClaimFile(s: State, p: Process, suffix: string): State {
    if !Redeems(s, p) || !s.work[p].redeem.Asked? then s
    else
      var nonce := s.work[p].nonce;
      if Published(nonce) !in s.dir then Without(s, p)
      else At(s.(dir := (s.dir - {Published(nonce)})[Claimed(nonce, suffix) := s.dir[Published(nonce)]],
                 claimed := s.claimed + {nonce}), p, s.work[p].(redeem := Holding(suffix)))
  }

  function ReadFile(s: State, p: Process, readable: bool): State {
    if !Redeems(s, p) || !s.work[p].redeem.Holding? then s
    else
      var suffix := s.work[p].redeem.suffix;
      var file := Claimed(s.work[p].nonce, suffix);
      At(s, p, s.work[p].(redeem := HasRead(suffix, if readable && file in s.dir then s.dir[file].payload else None)))
  }

  function UnlinkFile(s: State, p: Process, unlinked: bool): State {
    if !Redeems(s, p) || !s.work[p].redeem.HasRead? then s
    else
      var file := Claimed(s.work[p].nonce, s.work[p].redeem.suffix);
      At(if unlinked then s.(dir := s.dir - {file}) else s, p, s.work[p].(redeem := Checking(s.work[p].redeem.got)))
  }

  /** Whether a redeemer that read `got` says yes. */
  predicate Accepts(host: Host, got: Option<Payload>, r: Request, clock: real) {
    got.Some? && got.value.expires >= clock && got.value.digest == RequestDigest(host, r)
  }

  function CheckGrant(host: Host, s: State, p: Process): State {
    if !Redeems(s, p) || !s.work[p].redeem.Checking? then s
    else
      var w := s.work[p];
      Without(if Accepts(host, w.redeem.got, w.request, s.clock)
              then s.(accepted := s.accepted + [Redemption(w.nonce, w.request, s.clock)]) else s, p)
  }

  function Act(host: Host, s: State, a: Action): State {
    match a
    case StartIssue(p, nonce, request) => StartIssuing(s, p, nonce, request)
    case StatOld(p, nonce) => StatOldFile(s, p, nonce)
    case UnlinkOld(p) => UnlinkOldFile(s, p)
    case CreateTemporary(p) => CreateFile(s, p)
    case WriteTemporary(p) => WriteFile(host, s, p)
    case Publish(p) => PublishFile(s, p)
    case StartRedeem(p, nonce, request) => StartRedeeming(s, p, nonce, request)
    case Claim(p, suffix) => ClaimFile(s, p, suffix)
    case ReadClaimed(p, readable) => ReadFile(s, p, readable)
    case UnlinkClaimed(p, unlinked) => UnlinkFile(s, p, unlinked)
    case Check(p) => CheckGrant(host, s, p)
    case Crash(p) => Without(s, p)
    case Tick(later) => if later > s.clock then s.(clock := later) else s
  }

  function Run(host: Host, s: State, actions: seq<Action>): State {
    if actions == [] then s else Act(host, Run(host, s, actions[..|actions| - 1]), actions[|actions| - 1])
  }

  // ----- what every step keeps -----

  /** A file holds what its grant was issued with, or nothing yet. */
  ghost predicate GoodFile(host: Host, s: State, f: File)
    requires f in s.dir
  {
    && f.nonce in s.issued
    && s.dir[f].modified >= s.issued[f.nonce].at
    && (s.dir[f].payload.Some? ==> s.dir[f].payload == Some(PayloadFor(host, s.issued[f.nonce])))
    && (f.Published? ==> f.nonce in s.published && f.nonce !in s.claimed && s.dir[f].payload.Some?)
  }

  predicate Holds(w: Work) {
    w.Redeeming? && !w.redeem.Asked?
  }

  function Got(w: Work): Option<Payload>
    requires w.Redeeming?
  {
    match w.redeem
    case HasRead(_, got) => got
    case Checking(got) => got
    case _ => None
  }

  ghost predicate GoodIssue(s: State, w: Work)
    requires w.Issuing?
  {
    && w.nonce in s.issued && w.nonce !in s.published
    && (w.issue.FoundStale? ==> w.issue.stale in s.issued && s.issued[w.issue.stale].at + TTL < s.clock)
    && (w.issue.Written? && Temporary(w.nonce) in s.dir ==> s.dir[Temporary(w.nonce)].payload.Some?)
  }

  ghost predicate GoodHolding(host: Host, s: State, w: Work)
    requires w.Redeeming?
  {
    && w.nonce in s.claimed && (forall e <- s.accepted :: e.nonce != w.nonce)
    && (Got(w).Some? ==> w.nonce in s.issued && Got(w) == Some(PayloadFor(host, s.issued[w.nonce])))
  }

  ghost predicate GoodWork(host: Host, s: State, p: Process)
    requires p in s.work
  {
    && (s.work[p].Issuing? ==> GoodIssue(s, s.work[p]))
    && (Holds(s.work[p]) ==> GoodHolding(host, s, s.work[p]))
  }

  /** Two workers on one nonce: one only issues it, or at most one holds it. */
  ghost predicate Apart(v: Work, w: Work) {
    v.nonce == w.nonce ==> !(v.Issuing? && w.Issuing?) && !(Holds(v) && Holds(w))
  }

  ghost predicate Files(host: Host, s: State) {
    forall f <- s.dir :: GoodFile(host, s, f)
  }

  ghost predicate Workers(host: Host, s: State) {
    && (forall p <- s.work :: GoodWork(host, s, p))
    && (forall p, q | p in s.work && q in s.work && p != q :: Apart(s.work[p], s.work[q]))
  }

  ghost predicate History(host: Host, s: State) {
    && s.claimed <= s.published && s.published <= s.issued.Keys
    && (forall n <- s.issued :: s.issued[n].at <= s.clock)
    && (forall e <- s.accepted :: e.nonce in s.claimed && e.at <= s.issued[e.nonce].at + TTL
                                  && RequestDigest(host, e.request) == RequestDigest(host, s.issued[e.nonce].request))
    && (forall i, j | 0 <= i < j < |s.accepted| :: s.accepted[i].nonce != s.accepted[j].nonce)
    && (forall n <- s.published | n !in s.claimed && s.issued[n].at + TTL >= s.clock :: Published(n) in s.dir)
  }

  ghost predicate Inv(host: Host, s: State) {
    Files(host, s) && Workers(host, s) && History(host, s)
  }

  predicate Redeemer(a: Action) {
    a.StartRedeem? || a.Claim? || a.ReadClaimed? || a.UnlinkClaimed? || a.Check?
  }

  lemma FileKeptByIssuer(host: Host, s: State, a: Action, f: File)
    requires Inv(host, s) && !Redeemer(a) && f in Act(host, s, a).dir
    ensures GoodFile(host, Act(host, s, a), f)
  {
    hide RequestDigest, StartRedeeming, ClaimFile, ReadFile, UnlinkFile, CheckGrant;
    assert f in s.dir ==> GoodFile(host, s, f);
    assert !a.Tick? && a.p in s.work ==> GoodWork(host, s, a.p);
    assert !a.Tick? && Issues(s, a.p) && Temporary(s.work[a.p].nonce) in s.dir ==>
             GoodFile(host, s, Temporary(s.work[a.p].nonce));
  }

  lemma FileKeptByRedeemer(host: Host, s: State, a: Action, f: File)
    requires Inv(host, s) && Redeemer(a) && f in Act(host, s, a).dir
    ensures GoodFile(host, Act(host, s, a), f)
  {
    hide RequestDigest, StartIssuing, StatOldFile, UnlinkOldFile, CreateFile, WriteFile, PublishFile;
    assert f in s.dir ==> GoodFile(host, s, f);
    assert a.p in s.work ==> GoodWork(host, s, a.p);
    assert Redeems(s, a.p) && Published(s.work[a.p].nonce) in s.dir ==> GoodFile(host, s, Published(s.work[a.p].nonce));
  }

  /** What a worker is at after its own operation. */
  lemma WorkMovesByIssuer(host: Host, s: State, a: Action)
    requires Inv(host, s) && !Redeemer(a) && !a.Tick? && a.p in Act(host, s, a).work
    ensures GoodWork(host, Act(host, s, a), a.p)
  {
    hide RequestDigest, StartRedeeming, ClaimFile, ReadFile, UnlinkFile, CheckGrant;
    assert a.p in s.work ==> GoodWork(host, s, a.p);
    assert a.StatOld? && Published(a.nonce) in s.dir ==> GoodFile(host, s, Published(a.nonce));
  }

  lemma WorkMovesByRedeemer(host: Host, s: State, a: Action)
    requires Inv(host, s) && Redeemer(a) && a.p in Act(host, s, a).work
    ensures GoodWork(host, Act(host, s, a), a.p)
  {
    hide RequestDigest, StartIssuing, StatOldFile, UnlinkOldFile, CreateFile, WriteFile, PublishFile;
    assert a.p in s.work ==> GoodWork(host, s, a.p);
    assert Redeems(s, a.p) && Published(s.work[a.p].nonce) in s.dir ==> GoodFile(host, s, Published(s.work[a.p].nonce));
  }

  /** What another worker is at. */
  lemma IssueStays(host: Host, s: State, a: Action, q: Process)
    requires Inv(host, s) && q in s.work && s.work[q].Issuing? && (a.Tick? || q != a.p)
    ensures GoodIssue(Act(host, s, a), s.work[q])
  {
    hide RequestDigest, Accepts, GoodHolding;
    assert GoodWork(host, s, q) && (!a.Tick? && a.p in s.work ==> Apart(s.work[a.p], s.work[q]));
  }

  lemma HoldingStays(host: Host, s: State, a: Action, q: Process)
    requires Inv(host, s) && q in s.work && Holds(s.work[q]) && (a.Tick? || q != a.p)
    ensures GoodHolding(host, Act(host, s, a), s.work[q])
  {
    hide RequestDigest, Accepts, GoodIssue;
    assert GoodWork(host, s, q) && (!a.Tick? && a.p in s.work ==>
                                    GoodWork(host, s, a.p) && Apart(s.work[a.p], s.work[q]));
  }

  lemma Unmoved(host: Host, s: State, a: Action, q: Process)
    requires a.Tick? || q != a.p
    ensures q in Act(host, s, a).work <==> q in s.work
    ensures q in s.work ==> Act(host, s, a).work[q] == s.work[q]
  {
    hide RequestDigest, Accepts;
  }

  lemma WorkKept(host: Host, s: State, a: Action, q: Process)
    requires Inv(host, s) && q in Act(host, s, a).work
    ensures GoodWork(host, Act(host, s, a), q)
  {
    hide Act, Inv, GoodIssue, GoodHolding;
    if !a.Tick? && q == a.p {
      if Redeemer(a) { WorkMovesByRedeemer(host, s, a); } else { WorkMovesByIssuer(host, s, a); }
    } else {
      Unmoved(host, s, a, q);
      if s.work[q].Issuing? { IssueStays(host, s, a, q); }
      if Holds(s.work[q]) { HoldingStays(host, s, a, q); }
    }
  }

  lemma ApartKeptByIssuer(host: Host, s: State, a: Action, q: Process, r: Process)
    requires Inv(host, s) && !Redeemer(a) && q in Act(host, s, a).work && r in Act(host, s, a).work && q != r
    ensures Apart(Act(host, s, a).work[q], Act(host, s, a).work[r])
  {
    hide RequestDigest, StartRedeeming, ClaimFile, ReadFile, UnlinkFile, CheckGrant;
    assert q in s.work && r in s.work ==> Apart(s.work[q], s.work[r]);
    assert (q in s.work ==> GoodWork(host, s, q)) && (r in s.work ==> GoodWork(host, s, r));
  }

  lemma ApartKeptByRedeemer(host: Host, s: State, a: Action, q: Process, r: Process)
    requires Inv(host, s) && Redeemer(a) && q in Act(host, s, a).work && r in Act(host, s, a).work && q != r
    ensures Apart(Act(host, s, a).work[q], Act(host, s, a).work[r])
  {
    hide RequestDigest, StartIssuing, StatOldFile, UnlinkOldFile, CreateFile, WriteFile, PublishFile;
    assert q in s.work && r in s.work ==> Apart(s.work[q], s.work[r]);
    assert (q in s.work ==> GoodWork(host, s, q)) && (r in s.work ==> GoodWork(host, s, r));
    assert Redeems(s, a.p) && Published(s.work[a.p].nonce) in s.dir ==> GoodFile(host, s, Published(s.work[a.p].nonce));
  }

  lemma HistoryKeptByIssuer(host: Host, s: State, a: Action)
    requires Inv(host, s) && !Redeemer(a)
    ensures History(host, Act(host, s, a))
  {
    hide RequestDigest, StartRedeeming, ClaimFile, ReadFile, UnlinkFile, CheckGrant;
    assert !a.Tick? && a.p in s.work ==> GoodWork(host, s, a.p);
  }

  lemma HistoryKeptByRedeemer(host: Host, s: State, a: Action)
    requires Inv(host, s) && Redeemer(a)
    ensures History(host, Act(host, s, a))
  {
    hide RequestDigest, StartIssuing, StatOldFile, UnlinkOldFile, CreateFile, WriteFile, PublishFile;
    assert a.p in s.work ==> GoodWork(host, s, a.p);
  }

  lemma ActKeeps(host: Host, s: State, a: Action)
    requires Inv(host, s)
    ensures Inv(host, Act(host, s, a))
  {
    hide Act, GoodFile, GoodWork, Apart, History;
    var s' := Act(host, s, a);
    forall f <- s'.dir ensures GoodFile(host, s', f) {
      if Redeemer(a) { FileKeptByRedeemer(host, s, a, f); } else { FileKeptByIssuer(host, s, a, f); }
    }
    forall q <- s'.work ensures GoodWork(host, s', q) {
      WorkKept(host, s, a, q);
    }
    forall q, r | q in s'.work && r in s'.work && q != r ensures Apart(s'.work[q], s'.work[r]) {
      if Redeemer(a) { ApartKeptByRedeemer(host, s, a, q, r); } else { ApartKeptByIssuer(host, s, a, q, r); }
    }
    if Redeemer(a) { HistoryKeptByRedeemer(host, s, a); } else { HistoryKeptByIssuer(host, s, a); }
  }

  lemma {:induction false} RunKeeps(host: Host, actions: seq<Action>)
    ensures Inv(host, Run(host, INIT, actions))
    decreases |actions|
  {
    if actions != [] {
      RunKeeps(host, actions[..|actions| - 1]);
      ActKeeps(host, Run(host, INIT, actions[..|actions| - 1]), actions[|actions| - 1]);
    }
  }

  // ----- over every run -----

  /** However the workers interleave and wherever they crash, a grant is accepted at
      most once. */
  lemma AcceptedOnce(host: Host, actions: seq<Action>, i: nat, j: nat)
    requires i < j < |Run(host, INIT, actions).accepted|
    ensures Run(host, INIT, actions).accepted[i].nonce != Run(host, INIT, actions).accepted[j].nonce
  {
    RunKeeps(host, actions);
  }

  /** A request let in with a grant came while the grant lived, and has the digest of
      the request the grant was issued for. It is that request, but for the case of its
      method, when that one is not ambiguous or neither path holds a NUL. */
  lemma AcceptedAsIssued(host: Host, actions: seq<Action>, e: Redemption)
    requires Faithful(host) && CutsAtNul(host) && e in Run(host, INIT, actions).accepted
    ensures var s := Run(host, INIT, actions);
            && e.nonce in s.issued && e.at <= s.issued[e.nonce].at + TTL
            && var asked := s.issued[e.nonce].request;
               && RequestDigest(host, e.request) == RequestDigest(host, asked)
               && (PlainHead(host, e.request) && PlainHead(host, asked)
                   && (!Ambiguous(host, asked) || (NulFree(host.utf8(e.request.path))
                                                   && NulFree(host.utf8(asked.path))))
                   ==> SameRequest(host, e.request, asked))
  {
    RunKeeps(host, actions);
    var asked := Run(host, INIT, actions).issued[e.nonce].request;
    if PlainHead(host, e.request) && PlainHead(host, asked) {
      SharesIff(host, asked);
      assert !SameRequest(host, e.request, asked) ==> Shares(host, asked, e.request);
      ToldApartIff(host, asked);
    }
  }

  /** No purge, however late or interrupted, takes a grant that could still be
      redeemed: published, claimed by nobody and not expired, it is in the directory,
      whole. */
  lemma KeptUntilExpiry(host: Host, actions: seq<Action>, n: Nonce)
    requires var s := Run(host, INIT, actions);
             n in s.published && n !in s.claimed && n in s.issued && s.issued[n].at + TTL >= s.clock
    ensures var s := Run(host, INIT, actions);
            Published(n) in s.dir && s.dir[Published(n)].payload == Some(PayloadFor(host, s.issued[n]))
  {
    RunKeeps(host, actions);
    assert GoodFile(host, Run(host, INIT, actions), Published(n));
  }

  lemma RunMore(host: Host, s: State, actions: seq<Action>, a: Action)
    ensures Run(host, s, actions + [a]) == Act(host, Run(host, s, actions), a)
  {
    assert (actions + [a])[..|actions|] == actions;
  }

  function Redemptions(host: Host, s: State, p: Process, n: Nonce, r: Request, suffix: string): State {
    CheckGrant(host, UnlinkFile(ReadFile(ClaimFile(StartRedeeming(s, p, n, r), p, suffix), p, true), p, true), p)
  }

  lemma RedeemUndisturbed(host: Host, s: State, p: Process, n: Nonce, r: Request, suffix: string)
    requires NonceMatches(n) && p !in s.work && Published(n) in s.dir
    requires Accepts(host, s.dir[Published(n)].payload, r, s.clock)
    ensures Redemptions(host, s, p, n, r, suffix).accepted == s.accepted + [Redemption(n, r, s.clock)]
  {
  }

  function RedeemActions(p: Process, n: Nonce, r: Request, suffix: string): seq<Action> {
    [StartRedeem(p, n, r), Claim(p, suffix), ReadClaimed(p, true), UnlinkClaimed(p, true), Check(p)]
  }

  lemma RedeemRun(host: Host, s: State, actions: seq<Action>, p: Process, n: Nonce, r: Request, suffix: string)
    ensures Run(host, s, actions + RedeemActions(p, n, r, suffix))
            == Redemptions(host, Run(host, s, actions), p, n, r, suffix)
  {
    hide StartRedeeming, ClaimFile, ReadFile, UnlinkFile, CheckGrant;
    var asked := actions + [StartRedeem(p, n, r)];
    var claimed := asked + [Claim(p, suffix)];
    var read := claimed + [ReadClaimed(p, true)];
    var unlinked := read + [UnlinkClaimed(p, true)];
    RunMore(host, s, actions, StartRedeem(p, n, r));
    RunMore(host, s, asked, Claim(p, suffix));
    RunMore(host, s, claimed, ReadClaimed(p, true));
    RunMore(host, s, read, UnlinkClaimed(p, true));
    RunMore(host, s, unlinked, Check(p));
    assert actions + RedeemActions(p, n, r, suffix) == unlinked + [Check(p)];
  }

  /** A grant of `s` that could still be redeemed. */
  predicate Redeemable(s: State, n: Nonce) {
    IsNonce(n) && n in s.published && n !in s.claimed && n in s.issued && s.issued[n].at + TTL >= s.clock
  }

  /** Such a grant lets its own request in: a redeemer that meets no fault is accepted. */
  lemma FirstRedeemIsAccepted(host: Host, actions: seq<Action>, n: Nonce, p: Process, r: Request, suffix: string)
    requires var s := Run(host, INIT, actions);
             Redeemable(s, n) && p !in s.work && RequestDigest(host, r) == RequestDigest(host, s.issued[n].request)
    ensures var s := Run(host, INIT, actions);
            Run(host, INIT, actions + RedeemActions(p, n, r, suffix)).accepted
                == s.accepted + [Redemption(n, r, s.clock)]
  {
    hide RequestDigest, StartRedeeming, ClaimFile, ReadFile, UnlinkFile, CheckGrant;
    KeptUntilExpiry(host, actions, n);
    RedeemRun(host, INIT, actions, p, n, r, suffix);
    RedeemUndisturbed(host, Run(host, INIT, actions), p, n, r, suffix);
  }

  lemma RedeemersIssueNothing(host: Host, s: State, a: Action)
    requires Redeemer(a)
    ensures Act(host, s, a).issued == s.issued
  {
    hide RequestDigest, Accepts;
  }

  lemma RedeemKeepsIssued(host: Host, s: State, p: Process, n: Nonce, r: Request, suffix: string)
    ensures Redemptions(host, s, p, n, r, suffix).issued == s.issued
  {
    hide StartRedeeming, ClaimFile, ReadFile, UnlinkFile, CheckGrant;
    var asked := StartRedeeming(s, p, n, r);
    var claimed := ClaimFile(asked, p, suffix);
    var read := ReadFile(claimed, p, true);
    RedeemersIssueNothing(host, s, StartRedeem(p, n, r));
    RedeemersIssueNothing(host, asked, Claim(p, suffix));
    RedeemersIssueNothing(host, claimed, ReadClaimed(p, true));
    RedeemersIssueNothing(host, read, UnlinkClaimed(p, true));
    RedeemersIssueNothing(host, UnlinkFile(read, p, true), Check(p));
  }

  /** After an undisturbed redeem `r` was let in with the grant `n`. */
  ghost predicate LetIn(host: Host, actions: seq<Action>, n: Nonce, p: Process, suffix: string, r: Request) {
    Redemption(n, r, Run(host, INIT, actions).clock) in Run(host, INIT,
                                                            actions + RedeemActions(p, n, r, suffix)).accepted
  }

  /** `AcceptedAsIssued` is exact: a grant lets in a request other than the one it was
      issued for exactly when that one is ambiguous. */
  lemma AnotherLetInIff(host: Host, actions: seq<Action>, n: Nonce, p: Process, suffix: string)
    requires Faithful(host) && CutsAtNul(host)
    requires var s := Run(host, INIT, actions);
             Redeemable(s, n) && p !in s.work && PlainHead(host, s.issued[n].request)
    ensures var asked := Run(host, INIT, actions).issued[n].request;
            (exists r :: PlainHead(host, r) && !SameRequest(host, r, asked) && LetIn(host, actions, n, p, suffix, r))
            <==> Ambiguous(host, asked)
  {
    hide RequestDigest, PlainHead, SameRequest, Ambiguous, Run, Redemptions, RedeemActions, CutsAtNul, Faithful;
    var asked := Run(host, INIT, actions).issued[n].request;
    SharesIff(host, asked);
    if other :| Shares(host, asked, other) {
      FirstRedeemIsAccepted(host, actions, n, p, other, suffix);
      assert LetIn(host, actions, n, p, suffix, other);
    }
    forall r | PlainHead(host, r) && !SameRequest(host, r, asked) && LetIn(host, actions, n, p, suffix, r)
      ensures Shares(host, asked, r)
    {
      RedeemRun(host, INIT, actions, p, n, r, suffix);
      RedeemKeepsIssued(host, Run(host, INIT, actions), p, n, r, suffix);
      RunKeeps(host, actions + RedeemActions(p, n, r, suffix));
    }
  }

  // ----- the names of the files -----

  predicate Dotless(s: string) {
    '.' !in s
  }

  lemma CutAtDot(a: string, x: string, b: string, y: string)
    requires Dotless(a) && Dotless(b) && a + "." + x == b + "." + y
    ensures a == b && x == y
  {
    var s := a + "." + x;
    assert s[|a|] == s[|b|] == '.';
    assert a == s[..|a|] == b;
    assert x == s[|a| + 1..] == y;
  }

  lemma HiddenUnlessPublished(f: File)
    requires IsNonce(f.nonce)
    ensures NameOf(f) != "" && (NameOf(f)[0] == '.' <==> !f.Published?)
  {
    assert f.nonce[0] in f.nonce;
  }

  lemma ExtensionsApart(f: File, g: File)
    requires !f.Published? && !g.Published? && f.nonce == g.nonce && Extension(f) == Extension(g)
    requires (f.Claimed? ==> Dotless(f.suffix)) && (g.Claimed? ==> Dotless(g.suffix))
    ensures f == g
  {
    if f.Claimed? && g.Claimed? {
      CutAtDot(f.suffix, "redeemed", g.suffix, "redeemed");
    } else {
      assert |Extension(f)| == |Extension(g)|;
    }
  }

  /** Two files of the model never share a name: nonces and suffixes hold no dot. */
  lemma NamesApart(f: File, g: File)
    requires IsNonce(f.nonce) && IsNonce(g.nonce)
    requires (f.Claimed? ==> Dotless(f.suffix)) && (g.Claimed? ==> Dotless(g.suffix))
    ensures NameOf(f) == NameOf(g) <==> f == g
  {
    if NameOf(f) == NameOf(g) {
      HiddenUnlessPublished(f);
      HiddenUnlessPublished(g);
      if f.Published? {
        CutAtDot(f.nonce, "grant", g.nonce, "grant");
      } else {
        var rest, rest' := f.nonce + "." + Extension(f), g.nonce + "." + Extension(g);
        assert NameOf(f)[1..] == rest && NameOf(g)[1..] == rest';
        CutAtDot(f.nonce, Extension(f), g.nonce, Extension(g));
        ExtensionsApart(f, g);
      }
    }
  }
}

/**
 Message ids of the trigger engine's own prompts (backend/app/gateway/internal_auth.py):
 an id carries a nonce and a keyed hash of that nonce and its thread, and the database
 every worker shares takes each id once.

 Main results: an id is accepted only on the thread it was signed for
 (`AcceptedOnItsThread`), and is accepted there the first time (`SignedIsAccepted`). That
 it is accepted once is the database's own promise: a primary key.
*/
module TurnIds {
  /** HMAC-SHA256 under the server's key (section 2 of RFC 2104), in hex, cut to 32 digits. */
  type Mac = string -> string

  const PREFIX := "trigger-turn-"

  /** No two messages share a code, and a code holds no dot. */
  ghost predicate Faithful(mac: Mac) {
    (forall a, b | mac(a) == mac(b) :: a == b) && (forall a :: '.' !in mac(a))
  }

  function Message(nonce: string, thread: string): string {
    "turn-id|" + (thread + ("|" + nonce))
  }

  function Sign(mac: Mac, nonce: string, thread: string): string {
    PREFIX + (nonce + ("." + mac(Message(nonce, thread))))
  }

  /** What stands before the last dot; nothing when there is none. */
  function BeforeLastDot(s: string): string {
    if s == "" then "" else if s[|s| - 1] == '.' then s[..|s| - 1] else BeforeLastDot(s[..|s| - 1])
  }

  predicate WellSigned(mac: Mac, value: string, thread: string) {
    && |PREFIX| <= |value| && value[..|PREFIX|] == PREFIX
    && var nonce := BeforeLastDot(value[|PREFIX|..]);
       nonce != "" && Sign(mac, nonce, thread) == value
  }

  datatype Presented = Presented(value: string, thread: string, fromEngine: bool)

  /** Whether an id presented is accepted, with the ids taken so far. */
  predicate Accepts(mac: Mac, taken: set<string>, p: Presented) {
    p.fromEngine && WellSigned(mac, p.value, p.thread) && p.value !in taken
  }

  /** The ids taken once all of `asked` were presented. */
  function Taken(mac: Mac, asked: seq<Presented>): set<string> {
    if asked == [] then {}
    else
      var last := asked[|asked| - 1];
      var before := Taken(mac, asked[..|asked| - 1]);
      if last.fromEngine && WellSigned(mac, last.value, last.thread) then before + {last.value} else before
  }

  predicate AcceptedAt(mac: Mac, asked: seq<Presented>, i: nat)
    requires i < |asked|
  {
    Accepts(mac, Taken(mac, asked[..i]), asked[i])
  }

  lemma {:induction false} LastDot(nonce: string, code: string)
    requires '.' !in code
    ensures BeforeLastDot(nonce + ("." + code)) == nonce
    decreases |code|
  {
    var s := nonce + ("." + code);
    if code == "" {
      assert s[..|s| - 1] == nonce;
    } else {
      assert s[|s| - 1] == code[|code| - 1];
      assert s[..|s| - 1] == nonce + ("." + code[..|code| - 1]);
      LastDot(nonce, code[..|code| - 1]);
    }
  }

  lemma SameThread(nonce: string, a: string, b: string)
    requires Message(nonce, a) == Message(nonce, b)
    ensures a == b
  {
    assert |a| == |b|;
    assert Message(nonce, a)[8..][..|a|] == a;
    assert Message(nonce, b)[8..][..|b|] == b;
  }

  /** A signed id is good for the thread it was signed for and for no other,
      whatever characters nonce and thread hold. */
  lemma AcceptedOnItsThread(mac: Mac, nonce: string, thread: string, other: string)
    requires Faithful(mac) && nonce != ""
    ensures WellSigned(mac, Sign(mac, nonce, thread), other) <==> other == thread
  {
    var value := Sign(mac, nonce, thread);
    assert value[|PREFIX|..] == nonce + ("." + mac(Message(nonce, thread)));
    LastDot(nonce, mac(Message(nonce, thread)));
    if Sign(mac, nonce, other) == value {
      assert Sign(mac, nonce, other)[|PREFIX|..][|nonce|..][1..] == mac(Message(nonce, other));
      assert value[|PREFIX|..][|nonce|..][1..] == mac(Message(nonce, thread));
      SameThread(nonce, thread, other);
    }
  }

  lemma {:induction false} TakenOnlyAsked(mac: Mac, asked: seq<Presented>, value: string)
    requires forall p <- asked :: p.value != value
    ensures value !in Taken(mac, asked)
    decreases |asked|
  {
    if asked != [] {
      TakenOnlyAsked(mac, asked[..|asked| - 1], value);
    }
  }

  /** The engine's own request, with an id nobody presented before, is accepted. */
  lemma SignedIsAccepted(mac: Mac, asked: seq<Presented>, i: nat, nonce: string)
    requires Faithful(mac) && nonce != "" && i < |asked| && asked[i].fromEngine
    requires asked[i].value == Sign(mac, nonce, asked[i].thread)
    requires forall k | 0 <= k < i :: asked[k].value != asked[i].value
    ensures AcceptedAt(mac, asked, i)
  {
    AcceptedOnItsThread(mac, nonce, asked[i].thread, asked[i].thread);
    TakenOnlyAsked(mac, asked[..i], asked[i].value);
  }
}

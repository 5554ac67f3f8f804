/**
 The username given to someone who signs in for the first time through the external provider: the
 local part of the address, made safe, and then the first numbered variant that nobody has.
 */
module Usernames {
  import opened Wrappers
  import opened Decimals
  import opened Letters

  const BASE_LENGTH := 40
  const STEM_LENGTH := 45
  const COLUMN_WIDTH := 50

  predicate Allowed(c: char) {
    'a' <= c <= 'z' || 'A' <= c <= 'Z' || '0' <= c <= '9' || c == '_' || c == '-'
  }

  function Take(s: string, n: nat): string {
    if |s| <= n then s else s[..n]
  }

  /** The part before the first '@', all of it if there is none. */
  function LocalPart(email: string): string {
    if email == "" || email[0] == '@' then "" else [email[0]] + LocalPart(email[1..])
  }

  function Sanitised(s: string): string {
    seq(|s|, i requires 0 <= i < |s| => if Allowed(s[i]) then s[i] else '_')
  }

  function Base(email: string): string {
    var local := LocalPart(email);
    Sanitised(Take(if local == "" then "user" else local, BASE_LENGTH))
  }

  /** The k-th name tried; the base itself comes first. */
  function Candidate(base: string, k: nat): string {
    if k == 0 then base else Take(base, STEM_LENGTH) + "_" + Decimal(k)
  }

  // ----- the candidates

  lemma BaseIsSafe(email: string)
    ensures 1 <= |Base(email)| <= BASE_LENGTH
    ensures forall c :: c in Base(email) ==> Allowed(c)
  {
  }

  /** Letters of ASCII, digits, underscore and hyphen. */
  predicate Safe(c: char) {
    c in CAPITALS || c in SMALL || c in DIGITS || c in "_-"
  }

  lemma AllowedIsSafe(c: char)
    ensures Allowed(c) <==> Safe(c)
  {
    Capitals(c);
    Smalls(c);
    Numerals(c);
    assert "_-"[0] == '_' && "_-"[1] == '-';
  }

  /**
   The base for an address: its part before the first '@' ("user" if that is empty), the first forty
   characters of it, and an underscore for each that is not a letter, digit, underscore or hyphen.
   */
  ghost predicate BaseFor(email: string, at: nat, base: string) {
    && at <= |email| && '@' !in email[..at] && (at < |email| ==> email[at] == '@')
    && var local := if at == 0 then "user" else email[..at];
       && |base| == (if |local| < 40 then |local| else 40)
       && forall i :: 0 <= i < |base| ==> base[i] == if Safe(local[i]) then local[i] else '_'
  }

  lemma {:induction false} LocalPartEnds(email: string) returns (at: nat)
    ensures at <= |email| && '@' !in email[..at] && (at < |email| ==> email[at] == '@') && LocalPart(email) == email[..at]
  {
    if email == "" || email[0] == '@' {
      at := 0;
    } else {
      var rest := LocalPartEnds(email[1..]);
      at := rest + 1;
      assert email[..at] == [email[0]] + email[1..][..rest];
    }
  }

  lemma BaseIsFor(email: string) returns (at: nat)
    ensures BaseFor(email, at, Base(email))
  {
    at := LocalPartEnds(email);
    var local := if at == 0 then "user" else email[..at];
    var base := Base(email);
    assert base == Sanitised(Take(local, BASE_LENGTH));
    forall i | 0 <= i < |base| ensures base[i] == if Safe(local[i]) then local[i] else '_' { AllowedIsSafe(local[i]); }
  }

  lemma CandidatesDiffer(base: string, j: nat, k: nat)
    requires |base| <= BASE_LENGTH && j < k
    ensures Candidate(base, j) != Candidate(base, k)
  {
    var stem := base + "_";
    assert Candidate(base, k) == stem + Decimal(k);
    if j > 0 && Candidate(base, j) == Candidate(base, k) {
      assert Candidate(base, j) == stem + Decimal(j);
      assert Decimal(j) == Candidate(base, j)[|stem|..] == Decimal(k);
      Injective(j, k);
    }
  }

  lemma CandidateIsSafe(email: string, k: nat)
    ensures forall c :: c in Candidate(Base(email), k) ==> Allowed(c)
    ensures k < Pow10(9) ==> |Candidate(Base(email), k)| <= COLUMN_WIDTH
  {
    BaseIsSafe(email);
    ReadBack(k);
    if k < Pow10(9) { FewDigits(k, 9); }
  }

  /** Pigeonhole: k distinct names that are all taken need k names taken. */
  lemma {:induction false} TriedNamesFit(base: string, k: nat, taken: set<string>)
    requires |base| <= BASE_LENGTH
    requires forall j :: 0 <= j < k ==> Candidate(base, j) in taken
    ensures k <= |taken|
  {
    if k > 0 {
      var last := Candidate(base, k - 1);
      forall j | 0 <= j < k - 1 ensures Candidate(base, j) in taken - {last} {
        CandidatesDiffer(base, j, k - 1);
      }
      TriedNamesFit(base, k - 1, taken - {last});
    }
  }

  /** The search ends at every set of existing names, at the first free candidate. */
  method FindUsername(email: string, taken: set<string>) returns (username: string, suffix: nat)
    ensures suffix <= |taken|
    ensures username == Candidate(Base(email), suffix) && username !in taken
    ensures exists at: nat, base :: BaseFor(email, at, base) && username == if suffix == 0 then base else base + "_" + Decimal(suffix)
    ensures forall k :: 0 <= k < suffix ==> Candidate(Base(email), k) in taken
    ensures username != "" && forall c :: c in username ==> Allowed(c)
    ensures |taken| < Pow10(9) ==> |username| <= COLUMN_WIDTH
  {
    var base := Base(email);
    BaseIsSafe(email);
    username, suffix := base, 0;
    while username in taken
      invariant username == Candidate(base, suffix) && suffix <= |taken|
      invariant forall k :: 0 <= k < suffix ==> Candidate(base, k) in taken
      decreases |taken| - suffix
    {
      TriedNamesFit(base, suffix + 1, taken);
      suffix := suffix + 1;
      username := Take(base, STEM_LENGTH) + "_" + Decimal(suffix);
    }
    CandidateIsSafe(email, suffix);
    ghost var at := BaseIsFor(email);
    assert BaseFor(email, at, base);
  }

  // ----- the accounts

  datatype User = User(name: string, active: bool)

  datatype SignInError = NotConfigured | Deactivated

  class Accounts {
    /** By address. */
    var users: map<string, User>

    constructor ()
      ensures Valid() && users == map[]
    {
      users := map[];
    }

    /** No two accounts share a name. */
    ghost predicate Valid()
      reads this
    {
      forall e, f :: e in users && f in users && users[e].name == users[f].name ==> e == f
    }

    /** Signing in finds the account, or opens one under a new name; nobody else's account changes. */
    method LoginOrRegisterSso(email: string, configured: bool) returns (r: Result<string, SignInError>)
      requires Valid()
      modifies this
      ensures Valid()
      ensures r.Err? ==> users == old(users)
      ensures r.Err? <==> !configured || (email in old(users) && !old(users)[email].active)
      ensures r.Ok? ==> users == old(users)[email := User(r.value, true)]
      ensures r.Ok? && email in old(users) ==> r.value == old(users)[email].name
      ensures r.Ok? && email !in old(users) ==>
                && (forall e :: e in old(users) ==> old(users)[e].name != r.value)
                && (forall c :: c in r.value ==> Allowed(c))
                && (|old(users)| < Pow10(9) ==> |r.value| <= COLUMN_WIDTH)
    {
      if !configured { return Err(NotConfigured); }
      if email in users {
        if !users[email].active { return Err(Deactivated); }
        return Ok(users[email].name);
      }
      var taken := set e | e in users :: users[e].name;
      NamesAreNoMoreThanUsers(users);
      var name, _ := FindUsername(email, taken);
      users := users[email := User(name, true)];
      r := Ok(name);
    }
  }

  lemma {:induction false} NamesAreNoMoreThanUsers(users: map<string, User>)
    ensures |set e | e in users :: users[e].name| <= |users|
    decreases |users|
  {
    if e :| e in users {
      var rest := users - {e};
      assert |rest| == |users| - 1 by { assert rest.Keys == users.Keys - {e}; }
      NamesAreNoMoreThanUsers(rest);
      assert users == rest[e := users[e]];
      assert (set f | f in users :: users[f].name) == (set f | f in rest :: rest[f].name) + {users[e].name} by {
        forall f | f in users ensures users[f].name in (set g | g in rest :: rest[g].name) + {users[e].name} {
          assert f != e ==> f in rest && rest[f] == users[f];
        }
      }
    }
  }
}

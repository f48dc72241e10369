/**
  Secrets, and the one way to a value (src/secrets.ts). A text is what its references leave it as: literal
  pieces and the aliases between them.
 */
module Secrets {

  datatype Option<+T> = None | Some(value: T)

  datatype Token = Literal(text: string) | Reference(alias: string)
  type Text = seq<Token>

  // An audience as it is compared: trimmed, in lower case. None of it: any host.
  datatype Secret = Secret(value: string, audience: seq<string>)
  type Vault = map<string, Secret>

  // ---------------------------------------------------------------- audiences

  predicate EndsWith(s: string, end: string) {
    |end| <= |s| && s[|s| - |end|..] == end
  }

  predicate EntryPermits(entry: string, host: string) {
    if entry == "" then false
    else if |entry| >= 2 && entry[..2] == "*." then EndsWith(host, entry[1..])
    else host == entry
  }

  predicate Permits(audience: seq<string>, host: string) {
    audience == [] || exists i :: 0 <= i < |audience| && EntryPermits(audience[i], host)
  }

  // A wildcard stands for what is before the domain, and never for the bare domain.
  lemma WildcardIsOfSubdomains(domain: string, host: string)
    ensures EntryPermits("*." + domain, host) <==> exists sub :: host == sub + "." + domain
    ensures !EntryPermits("*." + domain, domain)
  {
    var entry := "*." + domain;
    assert entry[1..] == "." + domain && entry[..2] == "*.";
    if EndsWith(host, "." + domain) {
      var sub := host[..|host| - |domain| - 1];
      assert host == sub + ("." + domain) == sub + "." + domain;
    }
    if sub :| host == sub + "." + domain {
      assert host[|sub|..] == "." + domain;
    }
  }

  // An audience permits any host when there is none, and else the hosts it names and the subdomains it stands for.
  lemma {:induction false} PermitsExactly(audience: seq<string>, host: string)
    ensures Permits(audience, host) <==>
            || audience == []
            || (host in audience && host != "" && !(exists domain :: host == "*." + domain))
            || exists domain, sub :: "*." + domain in audience && host == sub + "." + domain
  {
    forall i | 0 <= i < |audience| ensures EntryPermits(audience[i], host) <==> NamesHost(audience[i], host) {
      EntryNames(audience[i], host);
    }
    if i :| 0 <= i < |audience| && EntryPermits(audience[i], host) {
      if domain, sub :| audience[i] == "*." + domain && host == sub + "." + domain {
        assert "*." + domain in audience;
      }
    }
    if domain, sub :| "*." + domain in audience && host == sub + "." + domain {
      var i :| 0 <= i < |audience| && audience[i] == "*." + domain;
      assert NamesHost(audience[i], host);
    }
    if host in audience && host != "" && !(exists domain :: host == "*." + domain) {
      var i :| 0 <= i < |audience| && audience[i] == host;
      assert NamesHost(audience[i], host);
    }
  }

  ghost predicate NamesHost(entry: string, host: string) {
    || (entry == host && host != "" && !(exists domain :: host == "*." + domain))
    || exists domain, sub :: entry == "*." + domain && host == sub + "." + domain
  }

  lemma EntryNames(entry: string, host: string)
    ensures EntryPermits(entry, host) <==> NamesHost(entry, host)
  {
    if |entry| >= 2 && entry[..2] == "*." {
      var domain := entry[2..];
      assert entry == "*." + domain;
      WildcardIsOfSubdomains(domain, host);
      forall d, sub | entry == "*." + d && host == sub + "." + d ensures d == domain {
        assert entry[2..] == d;
      }
    } else {
      forall d: string ensures entry != "*." + d {
        assert ("*." + d)[..2] == "*.";
      }
    }
  }

  // ---------------------------------------------------------------- resolving

  function Aliases(t: Text): seq<string> {
    if t == [] then []
    else Aliases(t[..|t| - 1]) + (if t[|t| - 1].Reference? then [t[|t| - 1].alias] else [])
  }

  predicate Sendable(v: Vault, host: string, alias: string) {
    alias in v && Permits(v[alias].audience, host)
  }

  function Shown(v: Vault, host: string, t: Token): string {
    match t
    case Literal(text) => text
    case Reference(alias) => if Sendable(v, host, alias) then v[alias].value else ""
  }

  function Resolved(v: Vault, host: string, t: Text): string {
    if t == [] then "" else Resolved(v, host, t[..|t| - 1]) + Shown(v, host, t[|t| - 1])
  }

  function AllAliases(texts: seq<Text>): seq<string> {
    if texts == [] then [] else AllAliases(texts[..|texts| - 1]) + Aliases(texts[|texts| - 1])
  }

  function AllResolved(v: Vault, host: string, texts: seq<Text>): (r: seq<string>)
    ensures |r| == |texts| && forall i :: 0 <= i < |texts| ==> r[i] == Resolved(v, host, texts[i])
  {
    if texts == [] then [] else AllResolved(v, host, texts[..|texts| - 1]) + [Resolved(v, host, texts[|texts| - 1])]
  }

  // ---------------------------------------------------------------- one credential

  datatype Verdict =
    | Clear
    | NoVault
    | NoDestination
    | MayNotBeSent(alias: string, host: string)
    | NotStored(aliases: seq<string>)

  function Absent(v: Vault, aliases: seq<string>): seq<string> {
    if aliases == [] then []
    else
      var rest := Absent(v, aliases[..|aliases| - 1]);
      var a := aliases[|aliases| - 1];
      if a in v || a in rest then rest else rest + [a]
  }

  function RefusedOf(v: Vault, host: string, aliases: seq<string>): seq<string> {
    if aliases == [] then []
    else
      var rest := RefusedOf(v, host, aliases[..|aliases| - 1]);
      var a := aliases[|aliases| - 1];
      if a !in v || Permits(v[a].audience, host) || a in rest then rest else rest + [a]
  }

  function Judge(vault: Option<Vault>, aliases: seq<string>, host: Option<string>): Verdict {
    if aliases == [] then Clear
    else if vault.None? then NoVault
    else if host.None? then NoDestination
    else
      var refused := RefusedOf(vault.value, host.value, aliases);
      var missing := Absent(vault.value, aliases);
      if refused != [] then MayNotBeSent(refused[0], host.value)
      else if missing != [] then NotStored(missing)
      else Clear
  }

  lemma {:induction false} RefusedAre(v: Vault, host: string, aliases: seq<string>)
    ensures forall a :: a in RefusedOf(v, host, aliases) <==> a in aliases && a in v && !Permits(v[a].audience, host)
    ensures forall a :: a in Absent(v, aliases) <==> a in aliases && a !in v
  {
    if aliases != [] {
      RefusedAre(v, host, aliases[..|aliases| - 1]);
      assert aliases == aliases[..|aliases| - 1] + [aliases[|aliases| - 1]];
    }
  }

  // A credential clears exactly when it names nothing, or there is a vault and a destination, and each secret it
  // names is held and may be sent there.
  lemma {:induction false} ClearsExactly(vault: Option<Vault>, aliases: seq<string>, host: Option<string>)
    ensures Judge(vault, aliases, host).Clear? <==>
            aliases == [] || (vault.Some? && host.Some? && forall a :: a in aliases ==> Sendable(vault.value, host.value, a))
  {
    if vault.Some? && host.Some? && aliases != [] {
      var refused, missing := RefusedOf(vault.value, host.value, aliases), Absent(vault.value, aliases);
      RefusedAre(vault.value, host.value, aliases);
      if refused != [] { assert refused[0] in refused; }
      if missing != [] { assert missing[0] in missing; }
    }
  }

  // The first alias named that is, of those that satisfy something, listed first; each once.
  ghost predicate ListedOnce(r: seq<string>, aliases: seq<string>, which: set<string>) {
    && (forall a :: a in r <==> a in aliases && a in which)
    && (forall i, j :: 0 <= i < j < |r| ==> r[i] != r[j] && FirstAt(aliases, r[i]) < FirstAt(aliases, r[j]))
  }

  function FirstAt(aliases: seq<string>, a: string): (i: nat)
    ensures i <= |aliases| && (i < |aliases| ==> aliases[i] == a)
    ensures forall j :: 0 <= j < i ==> aliases[j] != a
  {
    if aliases == [] || aliases[0] == a then 0 else 1 + FirstAt(aliases[1..], a)
  }

  lemma {:induction false} FirstAtAppend(aliases: seq<string>, b: string, a: string)
    ensures FirstAt(aliases + [b], a) == if a in aliases then FirstAt(aliases, a) else if a == b then |aliases| else |aliases| + 1
  {
    var more := aliases + [b];
    var i := FirstAt(more, a);
    if a in aliases {
      var k :| 0 <= k < |aliases| && aliases[k] == a;
      assert more[k] == a;
      assert forall j :: 0 <= j < |aliases| ==> more[j] == aliases[j];
    } else {
      assert forall j :: 0 <= j < |aliases| ==> more[j] == aliases[j] && more[j] != a;
      assert more[|aliases|] == b && |more| == |aliases| + 1;
    }
  }

  // One alias more, listed last if it is listed and was not before.
  lemma {:induction false} ListedThen(r: seq<string>, init: seq<string>, a: string, which: set<string>)
    requires ListedOnce(r, init, which)
    ensures ListedOnce(if a !in which || a in r then r else r + [a], init + [a], which)
  {
    forall x | x in r ensures FirstAt(init + [a], x) == FirstAt(init, x) < |init| {
      FirstAtAppend(init, a, x);
    }
    FirstAtAppend(init, a, a);
  }

  // What is missing and what is refused, each once, in the order it is named in.
  lemma {:induction false} NamedInOrder(v: Vault, host: string, aliases: seq<string>)
    ensures ListedOnce(Absent(v, aliases), aliases, (set a | a in aliases && a !in v))
    ensures ListedOnce(RefusedOf(v, host, aliases), aliases, (set a | a in aliases && a in v && !Permits(v[a].audience, host)))
  {
    if aliases != [] {
      var init, a := aliases[..|aliases| - 1], aliases[|aliases| - 1];
      assert aliases == init + [a];
      NamedInOrder(v, host, init);
      var absent, refused := Absent(v, init), RefusedOf(v, host, init);
      var m, r := (set x | x in aliases && x !in v), (set x | x in aliases && x in v && !Permits(v[x].audience, host));
      assert ListedOnce(absent, init, m) && ListedOnce(refused, init, r);
      ListedThen(absent, init, a, m);
      ListedThen(refused, init, a, r);
    }
  }

  // Why a credential does not clear: there is no vault, or no host; the first secret named that may not go there; or
  // the secrets that are not held, when none may not go.
  lemma {:induction false} RefusedWith(vault: Option<Vault>, aliases: seq<string>, host: Option<string>)
    requires aliases != []
    ensures var verdict := Judge(vault, aliases, host);
            && (verdict == NoVault <==> vault.None?)
            && (verdict == NoDestination <==> vault.Some? && host.None?)
            && (vault.Some? && host.Some? ==>
                  var v, h := vault.value, host.value;
                  && (verdict.MayNotBeSent? <==> exists a :: a in aliases && a in v && !Permits(v[a].audience, h))
                  && (verdict.MayNotBeSent? ==>
                        && verdict.host == h && verdict.alias in aliases && verdict.alias in v
                        && !Permits(v[verdict.alias].audience, h)
                        && forall i :: 0 <= i < FirstAt(aliases, verdict.alias) ==>
                                         aliases[i] !in v || Permits(v[aliases[i]].audience, h))
                  && (verdict.NotStored? ==> ListedOnce(verdict.aliases, aliases, (set a | a in aliases && a !in v))))
  {
    if vault.Some? && host.Some? {
      var v, h := vault.value, host.value;
      var refused, missing := RefusedOf(v, h, aliases), Absent(v, aliases);
      RefusedAre(v, h, aliases);
      NamedInOrder(v, h, aliases);
      if refused != [] {
        assert refused[0] in refused;
        forall i | 0 <= i < |aliases| && aliases[i] in v && !Permits(v[aliases[i]].audience, h)
          ensures FirstAt(aliases, refused[0]) <= i
        {
          var k :| 0 <= k < |refused| && refused[k] == aliases[i];
          assert FirstAt(aliases, aliases[i]) <= i;
        }
      } else if missing != [] {
        assert missing[0] in missing;
      }
    }
  }

  // A text is resolved piece by piece: a literal stays as it stands, and in place of a reference is the secret it
  // names, if that is held and may go to the host.
  lemma {:induction false} ResolvedPieceByPiece(v: Vault, host: string, a: Text, b: Text)
    ensures Resolved(v, host, a + b) == Resolved(v, host, a) + Resolved(v, host, b)
    decreases |b|
  {
    if b == [] {
      assert a + b == a;
    } else {
      var init, last := b[..|b| - 1], b[|b| - 1];
      assert (a + b)[..|a + b| - 1] == a + init;
      ResolvedPieceByPiece(v, host, a, init);
      Together(Resolved(v, host, a), Resolved(v, host, init), Shown(v, host, last));
    }
  }

  lemma Together(a: string, b: string, c: string)
    ensures a + b + c == a + (b + c)
  {
  }

  lemma OnePieceResolved(v: Vault, host: string, text: string, alias: string)
    ensures Resolved(v, host, [Literal(text)]) == text
    ensures Resolved(v, host, [Reference(alias)]) == if alias in v && Permits(v[alias].audience, host) then v[alias].value else ""
  {
    assert [Literal(text)][..0] == [] && [Reference(alias)][..0] == [];
  }

  // ---------------------------------------------------------------- the vault

  class SecretVault {
    var entries: Vault

    constructor ()
      ensures entries == map[]
    {
      entries := map[];
    }

    method Replace(given: Vault)
      modifies this
      ensures entries == given
    {
      entries := given;
    }

    // Afterwards what was given is held under its alias, over what was, and everything else as before.
    method Merge(given: Vault)
      modifies this
      ensures entries == old(entries) + given
    {
      var remaining := given.Keys;
      while remaining != {}
        invariant remaining <= given.Keys
        invariant entries == old(entries) + (given - remaining)
        decreases remaining
      {
        var alias :| alias in remaining;
        entries := entries[alias := given[alias]];
        remaining := remaining - {alias};
      }
      assert given - {} == given;
    }

    // Every text of a value resolved for one use. What is not held, or may not go there, becomes nothing and
    // is reported by name, once.
    method Resolve(texts: seq<Text>, host: string) returns (values: seq<string>, missing: seq<string>, refused: seq<string>)
      ensures values == AllResolved(entries, host, texts)
      ensures missing == Absent(entries, AllAliases(texts))
      ensures refused == RefusedOf(entries, host, AllAliases(texts))
    {
      values, missing, refused := [], [], [];
      for i := 0 to |texts|
        invariant values == AllResolved(entries, host, texts[..i])
        invariant missing == Absent(entries, AllAliases(texts[..i]))
        invariant refused == RefusedOf(entries, host, AllAliases(texts[..i]))
      {
        assert texts[..i + 1][..i] == texts[..i];
        var value: string;
        value, missing, refused := ResolveOne(texts[i], host, missing, refused, AllAliases(texts[..i]));
        values := values + [value];
      }
      assert texts[..|texts|] == texts;
    }

    // One text more, after those whose aliases come before.
    method ResolveOne(text: Text, host: string, missing': seq<string>, refused': seq<string>, ghost before: seq<string>)
      returns (value: string, missing: seq<string>, refused: seq<string>)
      requires missing' == Absent(entries, before) && refused' == RefusedOf(entries, host, before)
      ensures value == Resolved(entries, host, text)
      ensures missing == Absent(entries, before + Aliases(text)) && refused == RefusedOf(entries, host, before + Aliases(text))
    {
      value, missing, refused := "", missing', refused';
      ghost var seen := before;
      assert before + [] == before;
      for j := 0 to |text|
        invariant seen == before + Aliases(text[..j]) && value == Resolved(entries, host, text[..j])
        invariant missing == Absent(entries, seen) && refused == RefusedOf(entries, host, seen)
      {
        assert text[..j + 1][..j] == text[..j];
        match text[j] {
          case Literal(piece) =>
            value := value + piece;
          case Reference(alias) =>
            if alias !in entries {
              missing := if alias in missing then missing else missing + [alias];
            } else if !Permits(entries[alias].audience, host) {
              refused := if alias in refused then refused else refused + [alias];
            } else {
              value := value + entries[alias].value;
            }
            seen := seen + [alias];
        }
      }
      assert text[..|text|] == text;
    }
  }

}

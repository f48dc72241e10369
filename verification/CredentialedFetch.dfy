/**
  A request whose headers may name secrets, followed through redirects (src/credentialedFetch.ts). What the
  hosts answer, and what the vault holds by then, are anything at all.
 */
module CredentialedFetch {
  import opened Secrets

  const MAX_REDIRECTS: nat := 10

  datatype Address = Address(href: string, origin: string, host: Option<string>)

  datatype Header = Header(name: string, value: Text)
  datatype Sent = Sent(name: string, value: string)
  datatype Request = Request(target: Address, verb: string, headers: seq<Sent>, withBody: bool)

  // What a location says, read against the address it came from.
  datatype Location = NoLocation | NotAnAddress | OtherScheme | To(address: Address)
  datatype Answer = Answer(status: nat, location: Location)

  datatype Outcome =
    | Response
    | CredentialProblem(verdict: Verdict)
    | TooManyRedirects
    | RedirectToNoAddress
    | RedirectToOtherScheme

  // ---------------------------------------------------------------- names

  function LowerChar(c: char): char {
    if 'A' <= c <= 'Z' then c - 'A' + 'a' else c
  }

  function Lower(s: string): string {
    seq(|s|, i requires 0 <= i < |s| => LowerChar(s[i]))
  }

  predicate OriginBound(name: string) {
    Lower(name) in ["authorization", "cookie", "proxy-authorization"]
  }

  predicate OfTheBody(name: string) {
    Lower(name) in ["content-type", "content-length", "content-encoding", "content-language", "content-location"]
  }

  predicate IsRedirect(status: nat) {
    status == 301 || status == 302 || status == 303 || status == 307 || status == 308
  }

  predicate Redirected(answer: Answer) {
    IsRedirect(answer.status) && !answer.location.NoLocation?
  }

  // ---------------------------------------------------------------- one hop to the next

  // Whether the next hop is a plain GET without the body: after a 303 to anything but a GET or HEAD, and after
  // a 301 or 302 to a POST.
  predicate BecomesGet(status: nat, verb: string) {
    || (status == 303 && verb != "GET" && verb != "HEAD")
    || ((status == 301 || status == 302) && verb == "POST")
  }

  predicate Keeps(vault: Option<Vault>, h: Header, becomesGet: bool, crossOrigin: bool, target: Address) {
    && !(becomesGet && OfTheBody(h.name))
    && !(crossOrigin && OriginBound(h.name))
    && Judge(vault, Aliases(h.value), target.host).Clear?
  }

  function Kept(vault: Option<Vault>, held: seq<Header>, becomesGet: bool, crossOrigin: bool, target: Address): (r: seq<Header>)
    ensures |r| <= |held|
    ensures forall h :: h in r <==> h in held && Keeps(vault, h, becomesGet, crossOrigin, target)
  {
    if held == [] then []
    else Kept(vault, held[..|held| - 1], becomesGet, crossOrigin, target)
         + (if Keeps(vault, held[|held| - 1], becomesGet, crossOrigin, target) then [held[|held| - 1]] else [])
  }

  // Every alias a map of headers names.
  function Values(held: seq<Header>): seq<Text> {
    seq(|held|, i requires 0 <= i < |held| => held[i].value)
  }

  function Named(held: seq<Header>): seq<string> { AllAliases(Values(held)) }

  lemma {:induction false} NamedAre(held: seq<Header>, a: string)
    ensures a in Named(held) <==> exists h :: h in held && a in Aliases(h.value)
  {
    if held != [] {
      var init, last := held[..|held| - 1], held[|held| - 1];
      assert held == init + [last];
      NamedAre(init, a);
      assert Values(held)[..|held| - 1] == Values(init);
      assert a in Named(held) <==> a in Named(init) || a in Aliases(last.value);
      if h :| h in init && a in Aliases(h.value) {
        assert h in held;
      }
    }
  }

  // Headers that each clear alone clear together.
  lemma {:induction false} ClearTogether(vault: Option<Vault>, held: seq<Header>, host: Option<string>)
    requires forall h :: h in held ==> Judge(vault, Aliases(h.value), host).Clear?
    ensures Judge(vault, Named(held), host).Clear?
  {
    forall h | h in held
      ensures Aliases(h.value) == [] ||
              (vault.Some? && host.Some? && forall a :: a in Aliases(h.value) ==> Sendable(vault.value, host.value, a))
    {
      ClearsExactly(vault, Aliases(h.value), host);
    }
    forall a | a in Named(held) ensures vault.Some? && host.Some? && Sendable(vault.value, host.value, a) {
      NamedAre(held, a);
      var h :| h in held && a in Aliases(h.value);
    }
    if Named(held) != [] {
      assert Named(held)[0] in Named(held);
    }
    ClearsExactly(vault, Named(held), host);
  }

  // And together only if each clears alone.
  lemma {:induction false} ClearAlone(vault: Option<Vault>, held: seq<Header>, host: Option<string>, h: Header)
    requires Judge(vault, Named(held), host).Clear? && h in held
    ensures Judge(vault, Aliases(h.value), host).Clear?
  {
    ClearsExactly(vault, Named(held), host);
    ClearsExactly(vault, Aliases(h.value), host);
    forall a | a in Aliases(h.value) ensures a in Named(held) {
      NamedAre(held, a);
    }
    if Aliases(h.value) != [] {
      assert Aliases(h.value)[0] in Named(held);
    }
  }

  // ---------------------------------------------------------------- what is sent

  // A text without references is sent as it stands; any other is resolved for the host.
  function TextFor(vault: Option<Vault>, host: Option<string>, t: Text): string {
    Resolved(if vault.Some? then vault.value else map[], if host.Some? then host.value else "", t)
  }

  function HeadersFor(vault: Option<Vault>, target: Address, held: seq<Header>): (r: seq<Sent>)
    ensures |r| == |held|
    ensures forall i :: 0 <= i < |held| ==> r[i] == Sent(held[i].name, TextFor(vault, target.host, held[i].value))
  {
    seq(|held|, i requires 0 <= i < |held| => Sent(held[i].name, TextFor(vault, target.host, held[i].value)))
  }

  // Each secret a header names may go there: it is held, and its audience permits the host.
  ghost predicate MayGo(vault: Option<Vault>, target: Address, h: Header) {
    forall a :: a in Aliases(h.value) ==> vault.Some? && target.host.Some? && Sendable(vault.value, target.host.value, a)
  }

  ghost predicate Rightly(vault: Option<Vault>, target: Address, held: seq<Header>) {
    forall h :: h in held ==> MayGo(vault, target, h)
  }

  lemma {:induction false} ClearIsRightly(vault: Option<Vault>, target: Address, held: seq<Header>)
    requires Judge(vault, Named(held), target.host).Clear?
    ensures Rightly(vault, target, held)
  {
    forall h | h in held ensures MayGo(vault, target, h) {
      ClearAlone(vault, held, target.host, h);
      ClearsExactly(vault, Aliases(h.value), target.host);
    }
  }

  // The hops of one request: where each went, what was held there, and the request sent.
  datatype Hop = Hop(target: Address, verb: string, body: bool, held: seq<Header>, sent: Request)

  ghost predicate HopOk(vault: Option<Vault>, hop: Hop) {
    && hop.sent == Request(hop.target, hop.verb, HeadersFor(vault, hop.target, hop.held), hop.body)
    && Judge(vault, Named(hop.held), hop.target.host).Clear? && Rightly(vault, hop.target, hop.held)
  }

  // What follows from the answer to one hop.
  ghost predicate Reached(vault: Option<Vault>, hop: Hop, answer: Answer, next: Hop) {
    && IsRedirect(answer.status) && answer.location == To(next.target)
    && var becomesGet := BecomesGet(answer.status, hop.verb);
       && next.verb == (if becomesGet then "GET" else hop.verb)
       && next.body == (hop.body && !becomesGet)
       && next.held == Kept(vault, hop.held, becomesGet, next.target.origin != hop.target.origin, next.target)
  }

  // From one hop to the next: the vault by then is the one the headers were kept by.
  ghost predicate LinkOk(vaults: nat -> Option<Vault>, answers: nat -> Answer, hops: seq<Hop>, k: nat)
    requires k < |hops|
  {
    HopOk(vaults(k), hops[k]) && (k > 0 ==> Reached(vaults(k), hops[k - 1], answers(k - 1), hops[k]))
  }

  ghost predicate Chain(vaults: nat -> Option<Vault>, answers: nat -> Answer, hops: seq<Hop>) {
    forall k: nat :: k < |hops| ==> LinkOk(vaults, answers, hops, k)
  }

  lemma OneHopMore(vaults: nat -> Option<Vault>, answers: nat -> Answer, hops: seq<Hop>, hop: Hop)
    requires Chain(vaults, answers, hops) && HopOk(vaults(|hops|), hop)
    requires hops != [] ==> Reached(vaults(|hops|), hops[|hops| - 1], answers(|hops| - 1), hop)
    ensures Chain(vaults, answers, hops + [hop])
  {
    var more := hops + [hop];
    forall k: nat | k < |more| ensures LinkOk(vaults, answers, more, k) {
      if k < |hops| {
        assert LinkOk(vaults, answers, hops, k) && more[k] == hops[k];
      }
    }
  }

  ghost predicate Starts(hops: seq<Hop>, url: Address, verb: string, headers: seq<Header>, body: bool) {
    hops != [] ==> hops[0].target == url && hops[0].held == headers && hops[0].verb == verb && hops[0].body == body
  }

  lemma StartsOn(hops: seq<Hop>, current: Hop, more: seq<Hop>, next: Hop, url: Address, verb: string, headers: seq<Header>, body: bool)
    requires |more| == |hops| + 1 && hops == more[..|hops|] && SameCall(more[|hops|], current)
    requires Starts(hops + [current], url, verb, headers, body)
    ensures Starts(more, url, verb, headers, body) && Starts(more + [next], url, verb, headers, body)
  {
    assert (hops + [current])[0] == if hops == [] then current else hops[0];
    assert more[0] == if hops == [] then more[|hops|] else hops[0];
  }

  method Resolve(vault: Option<Vault>, target: Address, verb: string, held: seq<Header>, body: bool)
    returns (verdict: Verdict, request: Request)
    ensures verdict == Judge(vault, Named(held), target.host)
    ensures verdict.Clear? ==> HopOk(vault, Hop(target, verb, body, held, request))
  {
    verdict := Judge(vault, Named(held), target.host);
    request := Request(target, verb, if verdict.Clear? then HeadersFor(vault, target, held) else [], body);
    if verdict.Clear? {
      ClearIsRightly(vault, target, held);
    }
  }

  method Redirect(vault: Option<Vault>, answer: Answer, target: Address, was: Hop)
    returns (next: Hop)
    requires Redirected(answer) && answer.location == To(target)
    ensures Reached(vault, was, answer, next) && Judge(vault, Named(next.held), next.target.host).Clear?
  {
    var verb, body := was.verb, was.body;
    var becomesGet := BecomesGet(answer.status, verb);
    if becomesGet {
      verb, body := "GET", false;
    }
    var crossOrigin := target.origin != was.target.origin;
    var held := Kept(vault, was.held, becomesGet, crossOrigin, target);
    ClearTogether(vault, held, target.host);
    next := Hop(target, verb, body, held, was.sent);
  }

  // What the loop carries: the hops made, and, past the first address, where the last of them led.
  ghost predicate Under(vaults: nat -> Option<Vault>, answers: nat -> Answer, hops: seq<Hop>, next: Hop) {
    && Chain(vaults, answers, hops)
    && (hops != [] ==> Judge(vaults(|hops|), Named(next.held), next.target.host).Clear?
                       && Reached(vaults(|hops|), hops[|hops| - 1], answers(|hops| - 1), next))
  }

  // The same but for what was sent.
  ghost predicate SameCall(a: Hop, b: Hop) {
    a == b.(sent := a.sent)
  }

  // What came of the last answer, when no further hop did.
  ghost predicate Concludes(outcome: Outcome, answer: Answer, made: nat) {
    var redirected := answer.status in [301, 302, 303, 307, 308] && !answer.location.NoLocation?;
    && !outcome.CredentialProblem?
    && (outcome.Response? <==> !redirected)
    && (outcome.TooManyRedirects? <==> redirected && made > 10)
    && (outcome.RedirectToNoAddress? ==> answer.location.NotAnAddress?)
    && (outcome.RedirectToOtherScheme? ==> answer.location.OtherScheme?)
  }

  // What came of an answer: an end, or nothing yet.
  function Ending(answer: Answer, redirects: nat): (ended: Secrets.Option<Outcome>)
    ensures ended.Some? ==> Concludes(ended.value, answer, redirects + 1)
    ensures ended.None? ==> Redirected(answer) && answer.location.To? && redirects < MAX_REDIRECTS
  {
    if !Redirected(answer) then Some(Response)
    else if redirects >= MAX_REDIRECTS then Some(TooManyRedirects)
    else match answer.location
      case NotAnAddress => Some(RedirectToNoAddress)
      case OtherScheme => Some(RedirectToOtherScheme)
      case To(_) => None
  }

  // The headers resolved for an address, and the request sent there; or why it was not.
  method Send(vaults: nat -> Option<Vault>, answers: nat -> Answer, hops: seq<Hop>, made: Hop)
    returns (verdict: Verdict, more: seq<Hop>)
    requires Under(vaults, answers, hops, made)
    ensures verdict == Judge(vaults(|hops|), Named(made.held), made.target.host)
    ensures !verdict.Clear? ==> hops == more == []
    ensures verdict.Clear? ==>
              && |more| == |hops| + 1 && hops == more[..|hops|] && SameCall(more[|hops|], made)
              && Chain(vaults, answers, more)
  {
    var request;
    verdict, request := Resolve(vaults(|hops|), made.target, made.verb, made.held, made.body);
    more := hops;
    if verdict.Clear? {
      var hop := made.(sent := request);
      OneHopMore(vaults, answers, hops, hop);
      more := hops + [hop];
    }
  }

  // From resolving the headers for an address to what its answer leads to.
  method OneHop(vaults: nat -> Option<Vault>, answers: nat -> Answer, hops: seq<Hop>, made: Hop)
    returns (ended: Option<Outcome>, more: seq<Hop>, next: Hop)
    requires |hops| <= MAX_REDIRECTS && Under(vaults, answers, hops, made)
    ensures Judge(vaults(|hops|), Named(made.held), made.target.host).Clear? ==>
              && |more| == |hops| + 1 && hops == more[..|hops|] && SameCall(more[|hops|], made)
              && Chain(vaults, answers, more)
              && if ended.Some? then Concludes(ended.value, answers(|hops|), |more|)
                 else |more| <= MAX_REDIRECTS && Under(vaults, answers, more, next)
    ensures var verdict := Judge(vaults(|hops|), Named(made.held), made.target.host);
            !verdict.Clear? ==> hops == more == [] && ended == Some(CredentialProblem(verdict))
  {
    var verdict;
    verdict, more := Send(vaults, answers, hops, made);
    if !verdict.Clear? {
      return Some(CredentialProblem(verdict)), more, made;
    }
    ended, next := Follow(vaults, answers, more);
  }

  // What the last answer leads to.
  method Follow(vaults: nat -> Option<Vault>, answers: nat -> Answer, hops: seq<Hop>)
    returns (ended: Option<Outcome>, next: Hop)
    requires 0 < |hops| <= MAX_REDIRECTS + 1 && Chain(vaults, answers, hops)
    ensures if ended.Some? then Concludes(ended.value, answers(|hops| - 1), |hops|)
            else |hops| <= MAX_REDIRECTS && Under(vaults, answers, hops, next)
  {
    var redirects := |hops| - 1;
    var answer := answers(redirects);
    ended, next := Ending(answer, redirects), hops[redirects];
    if ended.None? {
      next := Redirect(vaults(redirects + 1), answer, answer.location.address, hops[redirects]);
    }
  }

  // The hops made, each with what was sent, and what came of them. A credential is a problem at the first
  // address, before anything is sent, or nowhere.
  method FetchWithCredentials(vaults: nat -> Option<Vault>, answers: nat -> Answer,
                              url: Address, verb: string, headers: seq<Header>, body: bool)
    returns (outcome: Outcome, hops: seq<Hop>)
    ensures |hops| <= MAX_REDIRECTS + 1 && Chain(vaults, answers, hops) && Starts(hops, url, verb, headers, body)
    ensures hops == [] <==> !Judge(vaults(0), Named(headers), url.host).Clear?
    ensures hops == [] ==> outcome == CredentialProblem(Judge(vaults(0), Named(headers), url.host))
    ensures hops != [] ==> Concludes(outcome, answers(|hops| - 1), |hops|)
  {
    var current := Hop(url, verb, body, headers, Request(url, verb, [], body));
    hops := [];
    while true
      invariant |hops| <= MAX_REDIRECTS && Under(vaults, answers, hops, current)
      invariant Starts(hops + [current], url, verb, headers, body)
      invariant hops != [] ==> Judge(vaults(0), Named(headers), url.host).Clear?
      decreases MAX_REDIRECTS - |hops|
    {
      var ended, more, next := OneHop(vaults, answers, hops, current);
      if more != [] {
        StartsOn(hops, current, more, next, url, verb, headers, body);
      }
      hops, current := more, next;
      if ended.Some? {
        return ended.value, hops;
      }
    }
  }

  // ---------------------------------------------------------------- along the chain

  // Whether a header goes on from one hop to the next.
  ghost predicate GoesOn(vaults: nat -> Option<Vault>, answers: nat -> Answer, hops: seq<Hop>, k: nat, h: Header)
    requires 0 < k < |hops|
  {
    && !(ToGet(answers(k - 1).status, hops[k - 1].verb) && OfTheBody(h.name))
    && !(hops[k].target.origin != hops[k - 1].target.origin && OriginBound(h.name))
    && MayGo(vaults(k), hops[k].target, h)
  }

  // A redirect that is followed as a GET without the body.
  predicate ToGet(status: nat, verb: string) {
    match status
    case 303 => verb !in ["GET", "HEAD"]
    case 301 => verb == "POST"
    case 302 => verb == "POST"
    case _ => false
  }

  // A header is held at a hop exactly when it was there to begin with and went on at every hop up to it.
  lemma {:induction false} HeldExactly(vaults: nat -> Option<Vault>, answers: nat -> Answer, hops: seq<Hop>, k: nat, h: Header)
    requires Chain(vaults, answers, hops) && k < |hops|
    ensures h in hops[k].held <==> h in hops[0].held && forall j: nat :: 0 < j <= k ==> GoesOn(vaults, answers, hops, j, h)
  {
    if k > 0 {
      HeldExactly(vaults, answers, hops, k - 1, h);
      OneGoesOn(vaults, answers, hops, k, h);
    }
  }

  lemma OneGoesOn(vaults: nat -> Option<Vault>, answers: nat -> Answer, hops: seq<Hop>, k: nat, h: Header)
    requires Chain(vaults, answers, hops) && 0 < k < |hops|
    ensures h in hops[k].held <==> h in hops[k - 1].held && GoesOn(vaults, answers, hops, k, h)
  {
    assert LinkOk(vaults, answers, hops, k);
    ClearsExactly(vaults(k), Aliases(h.value), hops[k].target.host);
    if Aliases(h.value) != [] {
      assert Aliases(h.value)[0] in Aliases(h.value);
    }
  }

  // Each hop but the first is where the answer before it led, a redirect with an address: with the same method and
  // body, or as a GET without one; and of what was held, what goes on.
  lemma {:induction false} HopFollows(vaults: nat -> Option<Vault>, answers: nat -> Answer, hops: seq<Hop>, k: nat, h: Header)
    requires Chain(vaults, answers, hops) && 0 < k < |hops|
    ensures answers(k - 1).status in [301, 302, 303, 307, 308] && answers(k - 1).location == To(hops[k].target)
    ensures var toGet := ToGet(answers(k - 1).status, hops[k - 1].verb);
            && hops[k].verb == (if toGet then "GET" else hops[k - 1].verb)
            && hops[k].body == (hops[k - 1].body && !toGet)
    ensures h in hops[k].held <==> h in hops[k - 1].held && GoesOn(vaults, answers, hops, k, h)
    ensures hops[k].sent == Request(hops[k].target, hops[k].verb, HeadersFor(vaults(k), hops[k].target, hops[k].held), hops[k].body)
  {
    OneGoesOn(vaults, answers, hops, k, h);
    assert LinkOk(vaults, answers, hops, k);
  }

  // What is held goes on in the order it is held in.
  lemma {:induction false} KeptInOrder(vault: Option<Vault>, a: seq<Header>, b: seq<Header>, becomesGet: bool, crossOrigin: bool, target: Address)
    ensures Kept(vault, a + b, becomesGet, crossOrigin, target)
         == Kept(vault, a, becomesGet, crossOrigin, target) + Kept(vault, b, becomesGet, crossOrigin, target)
    decreases |b|
  {
    if b == [] {
      assert a + b == a;
    } else {
      var init, last := b[..|b| - 1], b[|b| - 1];
      KeptInOrder(vault, a, init, becomesGet, crossOrigin, target);
      assert a + b == a + init + [last] && b == init + [last];
      OneKept(vault, a + init, last, becomesGet, crossOrigin, target);
      OneKept(vault, init, last, becomesGet, crossOrigin, target);
      Associates(Kept(vault, a, becomesGet, crossOrigin, target), Kept(vault, init, becomesGet, crossOrigin, target),
                 if Keeps(vault, last, becomesGet, crossOrigin, target) then [last] else []);
    }
  }

  lemma Associates(a: seq<Header>, b: seq<Header>, c: seq<Header>)
    ensures a + b + c == a + (b + c)
  {
  }

  lemma OneKept(vault: Option<Vault>, a: seq<Header>, h: Header, becomesGet: bool, crossOrigin: bool, target: Address)
    ensures Kept(vault, a + [h], becomesGet, crossOrigin, target)
         == Kept(vault, a, becomesGet, crossOrigin, target)
            + (if Keeps(vault, h, becomesGet, crossOrigin, target) then [h] else [])
  {
    assert (a + [h])[..|a|] == a;
  }

  // Once a redirect was followed as a GET, nothing of the body is sent again: neither the body nor what describes it.
  lemma {:induction false} BodyIsGone(vaults: nat -> Option<Vault>, answers: nat -> Answer, hops: seq<Hop>, j: nat, k: nat, i: nat)
    requires Chain(vaults, answers, hops) && 0 < j <= k < |hops| && ToGet(answers(j - 1).status, hops[j - 1].verb)
    requires i < |hops[k].sent.headers|
    ensures !OfTheBody(hops[k].sent.headers[i].name) && !hops[k].sent.withBody
  {
    assert LinkOk(vaults, answers, hops, k);
    var h := hops[k].held[i];
    HeldExactly(vaults, answers, hops, k, h);
    assert GoesOn(vaults, answers, hops, j, h);
    NoBody(vaults, answers, hops, j, k);
  }

  lemma {:induction false} NoBody(vaults: nat -> Option<Vault>, answers: nat -> Answer, hops: seq<Hop>, j: nat, k: nat)
    requires Chain(vaults, answers, hops) && 0 < j <= k < |hops| && ToGet(answers(j - 1).status, hops[j - 1].verb)
    ensures !hops[k].body
  {
    assert LinkOk(vaults, answers, hops, k);
    if j < k {
      NoBody(vaults, answers, hops, j, k - 1);
    }
  }

  // ---------------------------------------------------------------- names in either case

  // The same letters, in either case.
  predicate SameLetter(a: char, b: char) {
    || a == b
    || ('A' <= a <= 'Z' && b as int == a as int + 32)
    || ('A' <= b <= 'Z' && a as int == b as int + 32)
  }

  // A header's name means the same in either case.
  lemma {:induction false} CaseDoesNotMatter(a: string, b: string)
    requires |a| == |b| && forall i :: 0 <= i < |a| ==> SameLetter(a[i], b[i])
    ensures OriginBound(a) <==> OriginBound(b)
    ensures OfTheBody(a) <==> OfTheBody(b)
  {
    assert Lower(a) == Lower(b);
  }

  lemma NamesInLowerCase(name: string)
    requires forall i :: 0 <= i < |name| ==> !('A' <= name[i] <= 'Z')
    ensures OriginBound(name) <==> name in ["authorization", "cookie", "proxy-authorization"]
    ensures OfTheBody(name) <==>
              name in ["content-type", "content-length", "content-encoding", "content-language", "content-location"]
  {
    assert Lower(name) == name;
  }

  ghost predicate HasName(headers: seq<Sent>, name: string) {
    exists m :: 0 <= m < |headers| && headers[m].name == name
  }

  // Names are only ever left out, and stay out.
  lemma {:induction false} NamesShrink(vaults: nat -> Option<Vault>, answers: nat -> Answer, hops: seq<Hop>, j: nat, k: nat)
    requires Chain(vaults, answers, hops) && j <= k < |hops|
    ensures forall i :: 0 <= i < |hops[k].sent.headers| ==> HasName(hops[j].sent.headers, hops[k].sent.headers[i].name)
    ensures |hops[k].sent.headers| <= |hops[j].sent.headers|
  {
    assert LinkOk(vaults, answers, hops, j) && LinkOk(vaults, answers, hops, k);
    HeldShrinks(vaults, answers, hops, j, k);
    forall i | 0 <= i < |hops[k].sent.headers|
      ensures HasName(hops[j].sent.headers, hops[k].sent.headers[i].name)
    {
      assert hops[k].held[i] in hops[j].held;
      var m :| 0 <= m < |hops[j].held| && hops[j].held[m] == hops[k].held[i];
      assert hops[j].sent.headers[m].name == hops[k].sent.headers[i].name;
    }
  }

  lemma {:induction false} HeldShrinks(vaults: nat -> Option<Vault>, answers: nat -> Answer, hops: seq<Hop>, j: nat, k: nat)
    requires Chain(vaults, answers, hops) && j <= k < |hops|
    ensures |hops[k].held| <= |hops[j].held| && forall h :: h in hops[k].held ==> h in hops[j].held
  {
    if j < k {
      assert LinkOk(vaults, answers, hops, k);
      HeldShrinks(vaults, answers, hops, j, k - 1);
    }
  }

  // The same secrets may be sent to a host, and their values are the same.
  ghost predicate AgreeFor(v: Vault, w: Vault, host: string) {
    forall a: string :: if Sendable(v, host, a) then Sendable(w, host, a) && v[a].value == w[a].value else !Sendable(w, host, a)
  }

  // What a host is sent depends on no secret that may not be sent there: two vaults that agree on those that
  // may would have had the same headers sent.
  lemma {:induction false} OnlyWhatMayGo(v: Vault, w: Vault, target: Address, held: seq<Header>)
    requires target.host.Some? && AgreeFor(v, w, target.host.value)
    ensures HeadersFor(Some(v), target, held) == HeadersFor(Some(w), target, held)
  {
    forall i | 0 <= i < |held|
      ensures Resolved(v, target.host.value, held[i].value) == Resolved(w, target.host.value, held[i].value)
    {
      SameResolved(v, w, target.host.value, held[i].value);
    }
  }

  lemma {:induction false} SameResolved(v: Vault, w: Vault, host: string, t: Text)
    requires AgreeFor(v, w, host)
    ensures Resolved(v, host, t) == Resolved(w, host, t)
  {
    if t != [] {
      SameResolved(v, w, host, t[..|t| - 1]);
    }
  }

  // At every hop, each header was asked for, and every secret it names is held by then and may go to that host.
  lemma {:induction false} SecretsReachOnlyTheirAudience(vaults: nat -> Option<Vault>, answers: nat -> Answer, hops: seq<Hop>, k: nat, h: Header, a: string)
    requires Chain(vaults, answers, hops) && k < |hops| && h in hops[k].held && a in Aliases(h.value)
    ensures h in hops[0].held
    ensures vaults(k).Some? && hops[k].target.host.Some?
            && a in vaults(k).value && Permits(vaults(k).value[a].audience, hops[k].target.host.value)
  {
    HeldExactly(vaults, answers, hops, k, h);
    assert LinkOk(vaults, answers, hops, k);
    assert MayGo(vaults(k), hops[k].target, h);
  }

  // Past another origin, what is bound to one is not sent again, not even back at the first.
  lemma {:induction false} BoundToItsOrigin(vaults: nat -> Option<Vault>, answers: nat -> Answer, hops: seq<Hop>, j: nat, k: nat, i: nat)
    requires Chain(vaults, answers, hops) && 0 < j <= k < |hops| && hops[j].target.origin != hops[j - 1].target.origin
    requires i < |hops[k].sent.headers|
    ensures !OriginBound(hops[k].sent.headers[i].name)
  {
    assert LinkOk(vaults, answers, hops, k);
    var h := hops[k].held[i];
    HeldExactly(vaults, answers, hops, k, h);
    assert GoesOn(vaults, answers, hops, j, h);
  }
}

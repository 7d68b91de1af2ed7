/**
 * The settlement-code resolver: a memoising lookup from a settlement name to the code the
 * remote service uses for it (`get_settlement_code` and `SETTLEMENT_CODE_CACHE`).
 */
module SettlementCodes {
  import opened Types

  /**
   * `re.compile(f"^{name}(?: .+)?$").match(display)` for a name free of regex metacharacters:
   * `display` starts with `name`, and what follows is nothing, or a space and at least one more
   * character, none of them a line break. As Python's `$` also matches just before a final line
   * break, one trailing "\n" is allowed after either form.
   */
  predicate Matches(name: string, display: string) {
    |name| <= |display| && display[..|name|] == name && SuffixAllowed(display[|name|..])
  }

  /** The part of the pattern after the name: `(?: .+)?$`. */
  predicate SuffixAllowed(rest: string) {
    var body := if |rest| > 0 && rest[|rest| - 1] == '\n' then rest[..|rest| - 1] else rest;
    body == [] || (|body| >= 2 && body[0] == ' ' && '\n' !in body)
  }

  /** For display names without line breaks: the exact name, or the name, a space and a non-empty suffix. */
  lemma MatchesSingleLine(name: string, display: string)
    requires '\n' !in display
    ensures Matches(name, display) <==>
      display == name || (|display| >= |name| + 2 && display[..|name| + 1] == name + " ")
  {
    if |display| >= |name| + 2 && display[..|name| + 1] == name + " " {
      assert display[..|name|] == display[..|name| + 1][..|name|];
      assert display[|name|..][0] == ' ';
      assert forall k :: 0 <= k < |display| - |name| ==> display[|name|..][k] == display[|name| + k];
    }
    if Matches(name, display) && display != name {
      var rest := display[|name|..];
      assert display == name + rest;
      assert rest != [];
      assert rest[|rest| - 1] != '\n' by { assert rest[|rest| - 1] == display[|display| - 1]; }
      assert display[..|name| + 1] == name + [rest[0]];
    }
  }

  /** The match is anchored: a chosen display name begins with the name, and right after it comes nothing, a space or the final line break. */
  lemma MatchIsAnchored(name: string, display: string)
    requires Matches(name, display)
    ensures name <= display
    ensures |display| == |name| || display[|name|] == ' ' || (display[|name|] == '\n' && |display| == |name| + 1)
  {
    var rest := display[|name|..];
    if |rest| > 0 {
      assert display[|name|] == rest[0];
    }
  }

  lemma MatchExamples()
    ensures Matches("Szeged", "Szeged")
    ensures Matches("Szeged", "Szeged X")
    ensures !Matches("Szeged", "Szegedinum")
    ensures !Matches("Szeged", "Nagy Szeged")
    ensures !Matches("Szeged", "Szeged ")
    ensures Matches("Szeged", "Szeged\n")
  {
    MatchesSingleLine("Szeged", "Szeged X");
    MatchesSingleLine("Szeged", "Szegedinum");
    MatchesSingleLine("Szeged", "Nagy Szeged");
    MatchesSingleLine("Szeged", "Szeged ");
  }

  /**
   * One element of the search answer: its `telepulesNeve` field (`None` when it is absent or not
   * text, which the pattern refuses) and its `telepulesKod` field (`None` when it is absent: reading
   * it then raises inside the `try`, and the lookup fails). A code that is present but is not text
   * (a number or null) is not modelled.
   */
  datatype Candidate = Candidate(displayName: Option<string>, code: Option<string>)

  /** The outcome of one settlement search request. */
  datatype SearchReply =
    | Unreachable                          // the request itself failed
    | NotAList                             // the body is not a JSON list of objects
    | Listing(candidates: seq<Candidate>)

  /**
   * `next(match["telepulesKod"] for match in candidates if <match>)`: the code of the first
   * candidate whose display name matches. The walk stops (`None`) at the end of the list, or at
   * a candidate it cannot read before reaching a match.
   */
  function SelectCode(name: string, candidates: seq<Candidate>): Option<string>
    decreases |candidates|
  {
    if candidates == [] then None
    else match candidates[0].displayName
      case None => None
      case Some(d) => if Matches(name, d) then candidates[0].code else SelectCode(name, candidates[1..])
  }

  /** Candidate `i` is the first whose display name matches, and every earlier one has a readable, non-matching display name. */
  ghost predicate FirstMatch(name: string, candidates: seq<Candidate>, i: int) {
    0 <= i < |candidates|
    && candidates[i].displayName.Some? && Matches(name, candidates[i].displayName.value)
    && forall j :: 0 <= j < i ==> candidates[j].displayName.Some? && !Matches(name, candidates[j].displayName.value)
  }

  /** `SelectCode` returns a code exactly when it is the code of the first matching candidate. */
  lemma {:induction false} SelectCodeIsFirstMatch(name: string, candidates: seq<Candidate>, code: string)
    ensures SelectCode(name, candidates) == Some(code) <==>
      exists i :: FirstMatch(name, candidates, i) && candidates[i].code == Some(code)
    decreases |candidates|
  {
    if candidates != [] {
      match candidates[0].displayName
      case None =>
        NoMatchPastUnreadable(name, candidates);
      case Some(d) =>
        if Matches(name, d) {
          FirstMatchAtHead(name, candidates);
        } else {
          SelectCodeIsFirstMatch(name, candidates[1..], code);
          FirstMatchPastHead(name, candidates, code);
        }
    }
  }

  /** Behind a candidate whose display name cannot be read, no candidate is the first match. */
  lemma NoMatchPastUnreadable(name: string, candidates: seq<Candidate>)
    requires candidates != [] && candidates[0].displayName.None?
    ensures forall i :: !FirstMatch(name, candidates, i)
  {
  }

  /** A matching first candidate is the only first match. */
  lemma FirstMatchAtHead(name: string, candidates: seq<Candidate>)
    requires candidates != [] && candidates[0].displayName.Some? && Matches(name, candidates[0].displayName.value)
    ensures FirstMatch(name, candidates, 0)
    ensures forall i :: FirstMatch(name, candidates, i) ==> i == 0
  {
  }

  /** Past a readable, non-matching first candidate, the first match with a given code is the tail's, one place on. */
  lemma FirstMatchPastHead(name: string, candidates: seq<Candidate>, code: string)
    requires candidates != [] && candidates[0].displayName.Some? && !Matches(name, candidates[0].displayName.value)
    ensures (exists i :: FirstMatch(name, candidates, i) && candidates[i].code == Some(code)) <==>
      (exists i :: FirstMatch(name, candidates[1..], i) && candidates[1..][i].code == Some(code))
  {
    var tail := candidates[1..];
    if i :| FirstMatch(name, tail, i) && tail[i].code == Some(code) {
      assert FirstMatch(name, candidates, i + 1);
    }
    if i :| FirstMatch(name, candidates, i) && candidates[i].code == Some(code) {
      assert FirstMatch(name, tail, i - 1);
    }
  }

  /** A candidate that does not match is never the one chosen, even when a later one does. */
  lemma {:induction false} SelectCodeSkipsNonMatching(name: string, candidates: seq<Candidate>, i: nat)
    requires FirstMatch(name, candidates, i) && candidates[i].code.Some?
    ensures SelectCode(name, candidates) == candidates[i].code
  {
    SelectCodeIsFirstMatch(name, candidates, candidates[i].code.value);
  }

  /** `SelectCode` finds a code exactly when some candidate is the first match and carries a code. */
  lemma FirstMatchFound(name: string, candidates: seq<Candidate>)
    ensures SelectCode(name, candidates).Some? <==>
      exists i :: FirstMatch(name, candidates, i) && candidates[i].code.Some?
  {
    if SelectCode(name, candidates).Some? {
      SelectCodeIsFirstMatch(name, candidates, SelectCode(name, candidates).value);
    }
    if i :| FirstMatch(name, candidates, i) && candidates[i].code.Some? {
      SelectCodeSkipsNonMatching(name, candidates, i);
    }
  }

  /**
   * The body of the `try` in `get_settlement_code`, after the request: a code when the answer is
   * a list whose first matching candidate carries one, and then that code; an error carrying the
   * name otherwise.
   */
  function Lookup(name: string, reply: SearchReply): (r: Result<string>)
    ensures r.Ok? <==> reply.Listing? && exists i :: FirstMatch(name, reply.candidates, i) && reply.candidates[i].code.Some?
    ensures r.Ok? ==> exists i :: FirstMatch(name, reply.candidates, i) && reply.candidates[i].code == Some(r.value)
    ensures r.Err? ==> r.error == (if reply.Unreachable? then SearchFailed(name) else NoSettlementCode(name))
  {
    match reply
    case Unreachable => Err(SearchFailed(name))
    case NotAList => Err(NoSettlementCode(name))
    case Listing(candidates) =>
      FirstMatchFound(name, candidates);
      match SelectCode(name, candidates)
      case Some(code) =>
        SelectCodeIsFirstMatch(name, candidates, code);
        Ok(code)
      case None => Err(NoSettlementCode(name))
  }

  /** `after` keeps every entry of `before` as it is. */
  predicate Extends(before: map<string, string>, after: map<string, string>) {
    forall n :: n in before ==> n in after && after[n] == before[n]
  }

  /** No name occurs twice in `names`. */
  predicate Distinct(names: seq<string>) {
    forall p, q :: 0 <= p < q < |names| ==> names[p] != names[q]
  }

  /** `after` is the log `before` followed by searches for names none of which was in `cache`. */
  predicate SearchedAnew(cache: map<string, string>, before: seq<string>, after: seq<string>) {
    before <= after && forall k :: |before| <= k < |after| ==> after[k] !in cache
  }

  /** Searches made anew after `cache` and then anew after a cache that `cache` grew into are made anew after `cache`. */
  lemma SearchedAnewTwice(cache: map<string, string>, grown: map<string, string>, log0: seq<string>, log1: seq<string>, log2: seq<string>)
    requires SearchedAnew(cache, log0, log1) && SearchedAnew(grown, log1, log2) && Extends(cache, grown)
    ensures SearchedAnew(cache, log0, log2)
  {
    forall k | |log0| <= k < |log2| ensures log2[k] !in cache {
      if k < |log1| {
        assert log2[k] == log1[k];
      }
    }
  }

  /** The cache after `get_settlement_code(name)`: a miss whose lookup finds a code adds it, nothing else changes. */
  function CacheAfter(cache: map<string, string>, name: string, search: string -> SearchReply): map<string, string> {
    if name in cache then cache
    else match Lookup(name, search(name))
      case Ok(code) => cache[name := code]
      case Err(_) => cache
  }

  /** The request log after `get_settlement_code(name)`: a miss sends one search for the name. */
  function LogAfter(cache: map<string, string>, requests: seq<string>, name: string): seq<string> {
    if name in cache then requests else requests + [name]
  }

  /**
   * The resolver and its cache. `requests` records, in order, the names sent to the remote
   * search service; it is the model's view of that network traffic.
   */
  class Resolver {
    var cache: map<string, string>
    var requests: seq<string>

    constructor ()
      ensures cache == map[] && requests == []
    {
      cache := map[];
      requests := [];
    }

    /** Every cached code is what a fresh lookup of its name at `search` would give. */
    ghost predicate Coherent(search: string -> SearchReply)
      reads this
    {
      forall n :: n in cache ==> Lookup(n, search(n)) == Ok(cache[n])
    }

    /** Each search was for a name not searched before, and every name searched is cached. */
    ghost predicate Memoised()
      reads this
    {
      Distinct(requests) && forall n :: n in requests ==> n in cache
    }

    /** `get_settlement_code(name)`, with the remote search service given as `search`. */
    method Resolve(name: string, search: string -> SearchReply) returns (r: Result<string>)
      modifies this
      ensures name in old(cache) ==>
        r == Ok(old(cache)[name]) && cache == old(cache) && requests == old(requests)
      ensures name !in old(cache) ==>
        r == Lookup(name, search(name)) && requests == old(requests) + [name]
        && cache == if r.Ok? then old(cache)[name := r.value] else old(cache)
      ensures old(Coherent(search)) ==> Coherent(search) && r == Lookup(name, search(name))
      ensures cache == CacheAfter(old(cache), name, search) && requests == LogAfter(old(cache), old(requests), name)
      ensures SearchedAnew(old(cache), old(requests), requests)
      ensures old(Memoised()) ==> Distinct(requests) && (r.Ok? ==> Memoised())
    {
      if name in cache {
        return Ok(cache[name]);
      }
      requests := requests + [name];
      var reply := search(name);
      r := Lookup(name, reply);
      if r.Ok? {
        cache := cache[name := r.value];
      }
    }
  }
}

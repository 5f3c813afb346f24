/** The processor architectures a build can target (`Platform` in
    dotnet-common), and parsing an identifier into one. */
module Platforms {
  import opened Common
  import opened Text

  datatype Platform = X86 | X64 | ARM

  function Id(p: Platform): string {
    match p
    case X86 => "x86"
    case X64 => "x64"
    case ARM => "ARM"
  }

  function Description(p: Platform): (d: string)
    ensures d == Id(p)
  {
    match p
    case X86 => "x86"
    case X64 => "x64"
    case ARM => "ARM"
  }

  /** `Platform.values()`, in declaration order. */
  const AllPlatforms: seq<Platform> := [X86, X64, ARM]

  /** Identifiers are distinct, even ignoring case. */
  lemma IdsDistinctIgnoringCase(a: Platform, b: Platform)
    ensures EqualsIgnoreCase(Id(a), Id(b)) ==> a == b
  {
    assert Lower(Id(X86)) == "x86" && Lower(Id(X64)) == "x64" && Lower(Id(ARM)) == "arm";
  }

  // ---------------------------------------------------------------------
  // `tryParse` as the source writes it: `values().singleOrNull()` takes no
  // predicate, and there are three values.

  function TryParseAsWritten(id: string): (r: Option<Platform>)
    ensures r == None
  {
    SingleOrNull(AllPlatforms)
  }

  /** The argument plays no part in the result. */
  lemma TryParseAsWrittenIgnoresArgument(a: string, b: string)
    ensures TryParseAsWritten(a) == TryParseAsWritten(b)
  {
  }

  /** Even a platform's own identifier is rejected. */
  lemma TryParseAsWrittenRejectsIds()
    ensures TryParseAsWritten(Id(X86)) == None
    ensures TryParseAsWritten(Id(X64)) == None
    ensures TryParseAsWritten(Id(ARM)) == None
  {
  }

  // ---------------------------------------------------------------------
  // `tryParse` as intended: the one platform whose identifier matches,
  // ignoring case as `Tool.tryParse` does.

  function MatchesId(id: string): Platform -> bool {
    p => EqualsIgnoreCase(Id(p), id)
  }

  function TryParse(id: string): (r: Option<Platform>)
    ensures r.Some? ==> EqualsIgnoreCase(Id(r.value), id)
    ensures r.None? ==> forall p :: !EqualsIgnoreCase(Id(p), id)
  {
    TryParseMatches(id);
    SingleOrNull(Filter(AllPlatforms, MatchesId(id)))
  }

  lemma TryParseMatches(id: string)
    ensures var m := Filter(AllPlatforms, MatchesId(id));
      (|m| == 1 ==> EqualsIgnoreCase(Id(m[0]), id))
      && (|m| != 1 ==> forall p :: !EqualsIgnoreCase(Id(p), id))
  {
    var m := Filter(AllPlatforms, MatchesId(id));
    if |m| == 1 {
      assert m[0] in m;
    } else {
      forall p ensures !EqualsIgnoreCase(Id(p), id) {
        if EqualsIgnoreCase(Id(p), id) {
          SingleMatch(p, id);
        }
      }
    }
  }

  lemma SingleMatch(p: Platform, id: string)
    requires EqualsIgnoreCase(Id(p), id)
    ensures Filter(AllPlatforms, MatchesId(id)) == [p]
  {
    forall q | q in AllPlatforms && MatchesId(id)(q) ensures q == p {
      IdsDistinctIgnoringCase(q, p);
    }
    assert p in AllPlatforms;
    FilterOfUnique(AllPlatforms, MatchesId(id), p);
  }

  /** Every platform is found from its identifier in any letter case. */
  lemma {:induction false} TryParseRoundTrip(p: Platform, id: string)
    requires EqualsIgnoreCase(Id(p), id)
    ensures TryParse(id) == Some(p)
  {
    SingleMatch(p, id);
  }

  lemma {:induction false} TryParseOwnId(p: Platform)
    ensures TryParse(Id(p)) == Some(p)
    ensures TryParse(Lower(Id(p))) == Some(p)
  {
    TryParseRoundTrip(p, Id(p));
    LowerIdempotent(Id(p));
    TryParseRoundTrip(p, Lower(Id(p)));
  }
}

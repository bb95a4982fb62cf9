/**
 The positions a scope reaches: its own and those below it. Two independent spellings of that
 rule, and the order it makes of scopes.
 */
module Scope {
  import opened Core

  const UNIVERSAL: string := "*"
  const SEPARATOR: char := '/'

  /** `str::split`: the parts between separators, always at least one. */
  function Split(s: string): (parts: seq<string>)
    ensures parts != []
  {
    if s == "" then [""]
    else
      var rest := Split(s[1..]);
      if s[0] == SEPARATOR then [""] + rest
      else [[s[0]] + rest[0]] + rest[1..]
  }

  /** Every segment of the scope matched, in order, by the next segment of the position. */
  predicate AllMatched(segments: seq<string>, here: seq<string>) {
    segments == [] ||
    (here != [] && here[0] == segments[0] && AllMatched(segments[1..], here[1..]))
  }

  /** The rule as the engine reads it, segment by segment. */
  predicate AppliesAt(scope: string, position: string) {
    scope == UNIVERSAL || AllMatched(Split(scope), Split(position))
  }

  /** The rule as the oracle reads it, by a separator-anchored prefix. */
  predicate Reaches(scope: string, position: string) {
    scope == "*" || position == scope || scope + "/" <= position
  }

  lemma {:induction false} MatchedIsAnchoredPrefix(scope: string, position: string)
    ensures AllMatched(Split(scope), Split(position)) <==>
      position == scope || scope + "/" <= position
  {
    if scope == "" {
      assert Split(scope) == [""];
      assert AllMatched([""], Split(position)) <==> Split(position)[0] == "";
    } else if position != "" {
      MatchedIsAnchoredPrefix(scope[1..], position[1..]);
      var a, b := Split(scope[1..]), Split(position[1..]);
      if scope[0] == position[0] {
        assert scope == [scope[0]] + scope[1..] && position == [position[0]] + position[1..];
        assert scope + "/" <= position <==> scope[1..] + "/" <= position[1..] by {
          assert scope + "/" == [scope[0]] + (scope[1..] + "/");
        }
        if scope[0] == SEPARATOR {
          assert ([""] + a)[1..] == a && ([""] + b)[1..] == b;
        } else {
          HeadMatched(scope[0], a, b);
        }
      } else {
        assert (scope + "/")[0] == scope[0];
        assert (scope + "/")[0] == scope[0];
        assert ([scope[0]] + a[0])[0] == scope[0];
        assert ([position[0]] + b[0])[0] == position[0];
      }
    } else {
      assert Split(position) == [""];
      if scope[0] == SEPARATOR {
        assert Split(scope)[1..] == Split(scope[1..]);
      }
    }
  }

  lemma HeadMatched(c: char, a: seq<string>, b: seq<string>)
    requires a != [] && b != []
    ensures AllMatched([[c] + a[0]] + a[1..], [[c] + b[0]] + b[1..]) <==> AllMatched(a, b)
  {
    assert ([[c] + a[0]] + a[1..])[1..] == a[1..];
    assert ([[c] + b[0]] + b[1..])[1..] == b[1..];
    assert [c] + a[0] == [c] + b[0] <==> a[0] == b[0] by {
      assert ([c] + a[0])[1..] == a[0] && ([c] + b[0])[1..] == b[0];
    }
  }

  /** The two spellings agree on every pair of strings, malformed ones included. */
  lemma AppliesIffReaches(scope: string, position: string)
    ensures AppliesAt(scope, position) <==> Reaches(scope, position)
  {
    MatchedIsAnchoredPrefix(scope, position);
  }

  /** Reach is a partial order: reflexive, antisymmetric and transitive. */
  lemma ReachIsPartialOrder(a: string, b: string, c: string)
    ensures AppliesAt(a, a)
    ensures AppliesAt(a, b) && AppliesAt(b, a) ==> a == b
    ensures AppliesAt(a, b) && AppliesAt(b, c) ==> AppliesAt(a, c)
  {
    AppliesIffReaches(a, a);
    AppliesIffReaches(a, b);
    AppliesIffReaches(b, a);
    AppliesIffReaches(b, c);
    AppliesIffReaches(a, c);
    if a + "/" <= b && b + "/" <= c {
      assert a + "/" <= b + "/";
    }
  }

  /** `*` applies everywhere, and nothing else applies at `*`. */
  lemma UniversalIsTop(s: string)
    ensures AppliesAt(UNIVERSAL, s)
    ensures AppliesAt(s, UNIVERSAL) <==> s == UNIVERSAL
  {
    AppliesIffReaches(s, UNIVERSAL);
    assert (s + "/")[|s|] == '/';
  }

  /**
   Reach goes by whole segments: a position whose last segment merely starts like the scope's
   lies outside.
   */
  lemma SiblingsDoNotReach(scope: string, suffix: string)
    requires scope != UNIVERSAL && suffix != "" && suffix[0] != SEPARATOR
    ensures !AppliesAt(scope, scope + suffix)
  {
    AppliesIffReaches(scope, scope + suffix);
    assert (scope + "/")[|scope|] == '/';
    assert (scope + suffix)[|scope|] == suffix[0];
  }

  /** Distinct scopes never read alike: one of their own two positions tells them apart. */
  lemma ScopesReadApart(a: string, b: string)
    requires forall position :: position == a || position == b ==> (AppliesAt(a, position) <==> AppliesAt(b, position))
    ensures a == b
  {
    ReachIsPartialOrder(a, b, b);
    ReachIsPartialOrder(b, a, a);
  }

  /** A trailing separator is not a second spelling: it does not reach what the scope without it does. */
  lemma TrailingSeparatorReadsDifferently(scope: string, below: string)
    requires below != "" && below[0] != SEPARATOR
    ensures AppliesAt(scope, scope + "/" + below)
    ensures !AppliesAt(scope + "/", scope + "/" + below)
  {
    AppliesIffReaches(scope, scope + "/" + below);
    assert scope + "/" <= scope + "/" + below;
    assert scope + "/" != UNIVERSAL by {
      assert (scope + "/")[|scope|] == '/';
    }
    SiblingsDoNotReach(scope + "/", below);
  }

  // ----- what is a scope at all

  datatype ScopeError = NoScope | StrayEnds | EmptyPart | WildcardPart

  function PartComplaint(parts: seq<string>): Option<ScopeError> {
    if parts == [] then None
    else if Blank(parts[0]) then Some(EmptyPart)
    else if parts[0] == UNIVERSAL then Some(WildcardPart)
    else PartComplaint(parts[1..])
  }

  function Validate(scope: string): Result<(), ScopeError> {
    if scope == UNIVERSAL then Ok(())
    else if scope == "" then Err(NoScope)
    else if scope[0] == SEPARATOR || scope[|scope| - 1] == SEPARATOR then Err(StrayEnds)
    else
      match PartComplaint(Split(scope))
      case Some(e) => Err(e)
      case None => Ok(())
  }

  /** Every part names something, and none of them is the wildcard. */
  predicate PartsNamed(parts: seq<string>) {
    forall part :: part in parts ==> !Blank(part) && part != UNIVERSAL
  }

  lemma {:induction false} NoComplaintIffNamed(parts: seq<string>)
    ensures PartComplaint(parts).None? <==> PartsNamed(parts)
  {
    if parts != [] {
      NoComplaintIffNamed(parts[1..]);
      assert parts == [parts[0]] + parts[1..];
    }
  }

  lemma {:induction false} LastPartEmpty(scope: string)
    requires scope != "" && scope[|scope| - 1] == SEPARATOR
    ensures var parts := Split(scope); |parts| >= 2 && parts[|parts| - 1] == ""
  {
    if |scope| > 1 {
      LastPartEmpty(scope[1..]);
    } else {
      assert scope[1..] == "";
    }
  }

  lemma EndsSplitBlank(scope: string)
    requires scope != "" && (scope[0] == SEPARATOR || scope[|scope| - 1] == SEPARATOR)
    ensures "" in Split(scope)
  {
    if scope[0] == SEPARATOR {
      assert Split(scope)[0] == "";
    } else {
      LastPartEmpty(scope);
    }
  }

  /** Exactly the universal scope and the paths all of whose parts name something are accepted. */
  lemma ValidIffNamed(scope: string)
    ensures Validate(scope).Ok? <==> scope == UNIVERSAL || PartsNamed(Split(scope))
  {
    NoComplaintIffNamed(Split(scope));
    if scope == "" {
      assert "" in Split(scope);
    } else if scope[0] == SEPARATOR || scope[|scope| - 1] == SEPARATOR {
      EndsSplitBlank(scope);
    }
  }
}

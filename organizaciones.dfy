/**
 * The strategic dashboard's organisation list (`OrganizacionesPage`): a fixed list of
 * organisations narrowed by a search box.
 */
module Organizaciones {
  import opened Text

  datatype Organizacion = Organizacion(ruc: string, tipo: string, telefono: string, email: string)

  /** The page's list, as the page declares it. */
  const Listed: seq<Organizacion> := [
    Organizacion("20123456789", "Universidad", "987654321", "contacto@universidadx.edu.pe"),
    Organizacion("20567891234", "Empresa Privada", "956789123", "rrhh@empresay.com"),
    Organizacion("20876543210", "Gobierno", "912345678", "info@ministerioz.gob.pe")
  ]

  /** The search predicate: type or email contain the search text ignoring case, or the RUC
      contains it exactly. The telephone is not searched. */
  predicate Matches(o: Organizacion, search: string)
    ensures search == [] ==> Matches(o, search)
  {
    Includes(LowerStr(o.tipo), LowerStr(search))
    || Includes(LowerStr(o.email), LowerStr(search))
    || Includes(o.ruc, search)
  }

  /** `organizaciones.filter(o => ...)` */
  function Filtered(orgs: seq<Organizacion>, search: string): (r: seq<Organizacion>)
    ensures |r| <= |orgs|
    ensures forall o :: o in r ==> o in orgs && Matches(o, search)
  {
    if orgs == [] then []
    else (if Matches(orgs[0], search) then [orgs[0]] else []) + Filtered(orgs[1..], search)
  }

  /** A record is kept exactly when it is listed and matches. */
  lemma {:induction false} FilteredMembership(orgs: seq<Organizacion>, search: string, o: Organizacion)
    ensures o in Filtered(orgs, search) <==> o in orgs && Matches(o, search)
  {
    if orgs != [] {
      FilteredMembership(orgs[1..], search, o);
      assert o in orgs <==> o == orgs[0] || o in orgs[1..];
    }
  }

  /** Each record is kept as many times as it is listed when it matches, and never otherwise. */
  lemma {:induction false} FilteredMultiset(orgs: seq<Organizacion>, search: string, o: Organizacion)
    ensures multiset(Filtered(orgs, search))[o] == if Matches(o, search) then multiset(orgs)[o] else 0
  {
    if orgs != [] {
      FilteredMultiset(orgs[1..], search, o);
      var head := if Matches(orgs[0], search) then [orgs[0]] else [];
      assert multiset(Filtered(orgs, search)) == multiset(head) + multiset(Filtered(orgs[1..], search));
      assert orgs == [orgs[0]] + orgs[1..];
      assert multiset(orgs) == multiset([orgs[0]]) + multiset(orgs[1..]);
    }
  }

  /** `sub` is `s` with some elements left out, the rest kept in order. */
  predicate IsSubsequence(sub: seq<Organizacion>, s: seq<Organizacion>)
    decreases |s|
  {
    sub == [] || (s != [] && ((sub[0] == s[0] && IsSubsequence(sub[1..], s[1..])) || IsSubsequence(sub, s[1..])))
  }

  /** Filtering keeps the page's order. */
  lemma {:induction false} FilteredIsSubsequence(orgs: seq<Organizacion>, search: string)
    ensures IsSubsequence(Filtered(orgs, search), orgs)
  {
    if orgs != [] {
      FilteredIsSubsequence(orgs[1..], search);
      var rest := Filtered(orgs[1..], search);
      if Matches(orgs[0], search) {
        assert Filtered(orgs, search) == [orgs[0]] + rest;
        assert ([orgs[0]] + rest)[1..] == rest;
      } else {
        assert Filtered(orgs, search) == rest;
      }
    }
  }

  /** An empty search box keeps every organisation. */
  lemma {:induction false} EmptySearchKeepsAll(orgs: seq<Organizacion>)
    ensures Filtered(orgs, "") == orgs
  {
    if orgs != [] {
      EmptySearchKeepsAll(orgs[1..]);
    }
  }

  /** Nothing is left exactly when no record matches. */
  lemma FilteredEmptyIff(orgs: seq<Organizacion>, search: string)
    ensures Filtered(orgs, search) == [] <==> forall o :: o in orgs ==> !Matches(o, search)
  {
    forall o | o in orgs {
      FilteredMembership(orgs, search, o);
    }
    if Filtered(orgs, search) != [] {
      FilteredMembership(orgs, search, Filtered(orgs, search)[0]);
    }
  }

  /** The "No se encontraron organizaciones." row is rendered exactly when nothing matches. */
  function ShowsNoResultsRow(search: string): (shown: bool)
    ensures shown <==> forall o :: o in Listed ==> !Matches(o, search)
  {
    FilteredEmptyIff(Listed, search);
    Filtered(Listed, search) == []
  }

  /** Case folding applies to type and email: "GOB" finds the ministry by its email. */
  lemma SearchIgnoresCaseOfEmail()
    ensures Matches(Listed[2], "GOB")
  {
    var e := Listed[2].email;
    assert e[17] == 'g' && e[18] == 'o' && e[19] == 'b';
    MatchesByEmailWindow(Listed[2], "GOB", 17);
  }

  /** A record matches when, from some index on, its email spells the search ignoring case. */
  lemma MatchesByEmailWindow(o: Organizacion, search: string, i: nat)
    requires i + |search| <= |o.email|
    requires forall k :: 0 <= k < |search| ==> Lower(o.email[i + k]) == Lower(search[k])
    ensures Matches(o, search)
  {
    var e, q := LowerStr(o.email), LowerStr(search);
    assert q <= e[i..] by {
      forall k | 0 <= k < |q| ensures q[k] == e[i..][k] {
        assert e[i..][k] == Lower(o.email[i + k]);
      }
    }
    IncludesAt(e, q);
  }

  /** A record none of whose searched fields holds the search's first letter does not match. */
  lemma NoMatchWithoutFirst(o: Organizacion, search: string)
    requires search != []
    requires Lower(search[0]) !in LowerStr(o.tipo) && Lower(search[0]) !in LowerStr(o.email)
    requires search[0] !in o.ruc
    ensures !Matches(o, search)
  {
    NotIncludesWithoutFirst(LowerStr(o.tipo), LowerStr(search));
    NotIncludesWithoutFirst(LowerStr(o.email), LowerStr(search));
    NotIncludesWithoutFirst(o.ruc, search);
  }

  /** "GOB" does not find the university. */
  lemma SearchGobSkipsUniversity()
    ensures !Matches(Listed[0], "GOB")
  {
    NoMatchWithoutFirst(Listed[0], "GOB");
  }

  /** "GOB" does not find the company. */
  lemma SearchGobSkipsCompany()
    ensures !Matches(Listed[1], "GOB")
  {
    NoMatchWithoutFirst(Listed[1], "GOB");
  }
}

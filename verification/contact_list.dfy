/**
 * The contact search of src/app/kontakte/page.tsx: a contact is listed when
 * its lower-cased "firma vorname nachname email" line contains the
 * lower-cased query.
 */
module ContactList {

  import opened Optional
  import opened Text
  import opened Seqs
  import opened Database

  /** The text the query is matched against, missing fields read as ''. */
  function Haystack(k: Kontakt): (r: string)
    ensures |r| == |OrEmpty(k.firma)| + |OrEmpty(k.vorname)| + |OrEmpty(k.nachname)| + |OrEmpty(k.email)| + 3
    ensures r == Lower(OrEmpty(k.firma)) + " " + Lower(OrEmpty(k.vorname)) + " "
               + Lower(OrEmpty(k.nachname)) + " " + Lower(OrEmpty(k.email))
  {
    var f, v, n, e := OrEmpty(k.firma), OrEmpty(k.vorname), OrEmpty(k.nachname), OrEmpty(k.email);
    LowerAppend(f + " " + v + " " + n + " ", e);
    LowerAppend(f + " " + v + " " + n, " ");
    LowerAppend(f + " " + v + " ", n);
    LowerAppend(f + " " + v, " ");
    LowerAppend(f + " ", v);
    LowerAppend(f, " ");
    assert Lower(" ") == " ";
    Lower(f + " " + v + " " + n + " " + e)
  }

  /** The query, lower-cased, occurs somewhere in the lower-cased contact line. */
  predicate Matches(k: Kontakt, query: string): (b: bool)
    ensures b <==> exists i :: OccursAt(Haystack(k), Lower(query), i)
  {
    ContainsIff(Haystack(k), Lower(query));
    Contains(Haystack(k), Lower(query))
  }

  /** `filtered`: the contacts that match the query, in their fetched order. */
  function FilterContacts(kontakte: seq<Kontakt>, query: string): (r: seq<Kontakt>)
    ensures IsSubsequence(r, kontakte)
    ensures forall i :: 0 <= i < |r| ==> Matches(r[i], query)
    ensures forall k :: k in kontakte && Matches(k, query) ==> k in r
    ensures forall k :: multiset(r)[k] == if Matches(k, query) then multiset(kontakte)[k] else 0
  {
    var r := Filter(kontakte, k => Matches(k, query));
    forall k | k in kontakte && Matches(k, query)
      ensures k in r
    {
      FilterKeeps(kontakte, k => Matches(k, query), k);
    }
    r
  }

  /* ------------------------------- properties ------------------------------ */

  /** An empty query lists every contact. */
  lemma EmptyQueryKeepsAll(kontakte: seq<Kontakt>)
    ensures FilterContacts(kontakte, "") == kontakte
  {
    forall i | 0 <= i < |kontakte|
      ensures Matches(kontakte[i], "")
    {
      ContainsEmpty(Haystack(kontakte[i]));
    }
    FilterAll(kontakte, k => Matches(k, ""));
  }

  /** The separators make a one-space query match every contact. */
  lemma SpaceQueryKeepsAll(kontakte: seq<Kontakt>)
    ensures FilterContacts(kontakte, " ") == kontakte
  {
    forall i | 0 <= i < |kontakte|
      ensures Matches(kontakte[i], " ")
    {
      var k := kontakte[i];
      var h := Haystack(k);
      var n := |OrEmpty(k.firma)|;
      assert h[n] == ' ';
      assert h[n..n + 1] == " ";
      assert Lower(" ") == " ";
      ContainsSlice(h, n, n + 1);
    }
    FilterAll(kontakte, k => Matches(k, " "));
  }

  /** The case of the query does not matter. */
  lemma QueryCaseIrrelevant(kontakte: seq<Kontakt>, query: string)
    ensures FilterContacts(kontakte, Lower(query)) == FilterContacts(kontakte, query)
    ensures FilterContacts(kontakte, Upper(query)) == FilterContacts(kontakte, query)
  {
    LowerIdempotent(query);
    assert Lower(Upper(query)) == Lower(query) by {
      forall i | 0 <= i < |query|
        ensures LowerChar(UpperChar(query[i])) == LowerChar(query[i])
      {
      }
    }
    FilterSamePredicate(kontakte, k => Matches(k, Lower(query)), k => Matches(k, query));
    FilterSamePredicate(kontakte, k => Matches(k, Upper(query)), k => Matches(k, query));
  }

  /** A query can run across the boundary between given name and family name. */
  lemma MatchAcrossFields(k: Kontakt)
    requires k.firma == None && k.vorname == Some("Anna") && k.nachname == Some("Weber")
    ensures Matches(k, "ANNA WEB")
  {
    var joined := OrEmpty(k.firma) + " " + OrEmpty(k.vorname) + " " + OrEmpty(k.nachname) + " " + OrEmpty(k.email);
    assert joined[1..9] == "Anna Web" by {
      assert OrEmpty(k.firma) == "" && OrEmpty(k.vorname) == "Anna" && OrEmpty(k.nachname) == "Weber";
    }
    LowerSlice(joined, 1, 9);
    LowerExamples();
    ContainsSlice(Haystack(k), 1, 9);
  }

  lemma LowerExamples()
    ensures Lower("Anna Web") == "anna web" && Lower("ANNA WEB") == "anna web"
  {
  }

  /** Of a company "Muster AG" and a person "Weber", only the company matches "mus". */
  lemma SearchExample(a: Kontakt, b: Kontakt)
    requires a.firma == Some("Muster AG") && a.vorname == None && a.nachname == None && a.email == None
    requires b.firma == None && b.vorname == None && b.nachname == Some("Weber") && b.email == None
    ensures FilterContacts([a, b], "mus") == [a]
  {
    assert Haystack(a)[0..3] == "mus";
    assert Lower("mus") == "mus";
    ContainsSlice(Haystack(a), 0, 3);
    assert Haystack(b) == "  weber ";
    NotContainsFirstChar(Haystack(b), "mus");
    assert [a, b][1..] == [b];
  }
}

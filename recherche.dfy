/** client/src/components/pages/RecherchePage.jsx: the search over the
    loaded professionals, by a free-text query and by a profession key. The
    translation of a profession key (`t('profession_' + key)`) is a
    parameter. */
module Recherche {
  import opened Common
  import opened Seqs
  import opened Text
  import Bookings

  /** The fields of a loaded professional that the search reads; `None` is
      a field the profile does not have. */
  datatype Profile = Profile(
    companyName: Option<string>,
    profession: Option<string>,
    address: Option<string>,
    description: Option<string>)

  /** `field?.toLowerCase().includes(q.toLowerCase())`: a missing field never
      matches, not even the empty query. */
  predicate FieldHas(field: Option<string>, query: string) {
    field.Some? && ContainsIgnoreCase(field.value, query)
  }

  predicate QueryMatches(pro: Profile, query: string) {
    FieldHas(pro.companyName, query) || FieldHas(pro.profession, query)
    || FieldHas(pro.address, query) || FieldHas(pro.description, query)
  }

  /** `pro.profession?.toLowerCase()` equals the lower-cased translation or
      the lower-cased key. */
  predicate ProfessionMatches(pro: Profile, key: string, translated: string) {
    pro.profession.Some?
    && (Lower(pro.profession.value) == Lower(translated) || Lower(pro.profession.value) == Lower(key))
  }

  function QueryTest(query: string): Profile -> bool {
    (p: Profile) => QueryMatches(p, query)
  }

  function ProfessionTest(key: string, translate: string -> string): Profile -> bool {
    (p: Profile) => ProfessionMatches(p, key, translate("profession_" + key))
  }

  /** The first pass, applied only to a non-empty query. */
  function ByQuery(pros: seq<Profile>, query: string): (r: seq<Profile>)
    ensures IsSubseq(r, pros)
    ensures forall p :: p in pros ==> (p in r <==> query == "" || QueryMatches(p, query))
  {
    if query == "" then
      SubseqRefl(pros);
      pros
    else
      FilterIsSubseq(pros, QueryTest(query));
      Bookings.FilterMembers(pros, QueryTest(query));
      Filter(pros, QueryTest(query))
  }

  /** The second pass, applied only to a profession other than 'all'. */
  function ByProfession(pros: seq<Profile>, key: string, translate: string -> string): (r: seq<Profile>)
    ensures IsSubseq(r, pros)
    ensures forall p :: p in pros ==>
      (p in r <==> key == "all" || ProfessionMatches(p, key, translate("profession_" + key)))
  {
    if key == "all" then
      SubseqRefl(pros);
      pros
    else
      FilterIsSubseq(pros, ProfessionTest(key, translate));
      Bookings.FilterMembers(pros, ProfessionTest(key, translate));
      Filter(pros, ProfessionTest(key, translate))
  }

  /** Both searches are in force: the query unless it is empty, the
      profession unless it is 'all'. */
  predicate Selected(pro: Profile, query: string, key: string, translate: string -> string) {
    (query == "" || QueryMatches(pro, query))
    && (key == "all" || ProfessionMatches(pro, key, translate("profession_" + key)))
  }

  function SelectedTest(query: string, key: string, translate: string -> string): Profile -> bool {
    (p: Profile) => Selected(p, query, key, translate)
  }

  /** `filterProfessionals`: the query pass, then the profession pass. */
  function FilterProfessionals(pros: seq<Profile>, query: string, key: string, translate: string -> string)
    : (r: seq<Profile>)
    ensures IsSubseq(r, pros)
    ensures forall p :: p in pros ==> (p in r <==> Selected(p, query, key, translate))
    ensures query == "" && key == "all" ==> r == pros
  {
    var q := ByQuery(pros, query);
    SubseqTrans(ByProfession(q, key, translate), q, pros);
    ByProfession(q, key, translate)
  }

  /** The two passes are one filter by the conjunction of both tests: the
      same professionals, in the same order, each once. */
  lemma TwoPassesAreOne(pros: seq<Profile>, query: string, key: string, translate: string -> string)
    ensures FilterProfessionals(pros, query, key, translate) == Filter(pros, SelectedTest(query, key, translate))
  {
    if query == "" && key == "all" {
      FilterAll(pros, SelectedTest(query, key, translate));
    } else if key == "all" {
      QueryPassOnly(pros, query, translate);
    } else if query == "" {
      ProfessionPassOnly(pros, key, translate);
    } else {
      BothPasses(pros, query, key, translate);
    }
  }

  lemma QueryPassOnly(pros: seq<Profile>, query: string, translate: string -> string)
    requires query != ""
    ensures FilterProfessionals(pros, query, "all", translate) == Filter(pros, SelectedTest(query, "all", translate))
  {
    assert FilterProfessionals(pros, query, "all", translate) == Filter(pros, QueryTest(query));
    FilterExt(pros, QueryTest(query), SelectedTest(query, "all", translate));
  }

  lemma ProfessionPassOnly(pros: seq<Profile>, key: string, translate: string -> string)
    requires key != "all"
    ensures FilterProfessionals(pros, "", key, translate) == Filter(pros, SelectedTest("", key, translate))
  {
    assert FilterProfessionals(pros, "", key, translate) == Filter(pros, ProfessionTest(key, translate));
    FilterExt(pros, ProfessionTest(key, translate), SelectedTest("", key, translate));
  }

  lemma BothPasses(pros: seq<Profile>, query: string, key: string, translate: string -> string)
    requires query != "" && key != "all"
    ensures FilterProfessionals(pros, query, key, translate) == Filter(pros, SelectedTest(query, key, translate))
  {
    var qp, kp := QueryTest(query), ProfessionTest(key, translate);
    PassesInTurn(pros, query, key, translate);
    FilterFilter(pros, qp, kp, SelectedTest(query, key, translate));
  }

  lemma PassesInTurn(pros: seq<Profile>, query: string, key: string, translate: string -> string)
    requires query != "" && key != "all"
    ensures FilterProfessionals(pros, query, key, translate)
         == Filter(Filter(pros, QueryTest(query)), ProfessionTest(key, translate))
  {
    assert ByQuery(pros, query) == Filter(pros, QueryTest(query));
  }

  /** Filters by predicates that agree everywhere give the same list. */
  lemma {:induction false} FilterExt<T>(s: seq<T>, p: T -> bool, q: T -> bool)
    requires forall x :: p(x) == q(x)
    ensures Filter(s, p) == Filter(s, q)
  {
    if s != [] {
      FilterExt(s[1..], p, q);
    }
  }
}

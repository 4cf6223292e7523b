/**
 * Club-name resolution: the club-to-crest table, the key normaliser and the
 * three-tier lookup that turns a free-text club name into a logo URL.
 */
module ClubLogoMap {
  import opened Wrappers
  import opened JsString

  /** A logo URL. Every value of the table is a non-empty string, hence truthy. */
  type Url = s: string | |s| > 0 witness "u"

  /**
   * A club-name-to-URL table, as its entries in the order they are listed. `Object.keys`
   * enumerates an object in that order when no key repeats and no key is array-index-like
   * (such keys are listed first, in numeric order).
   */
  type Table = seq<(string, Url)>

  /**
   * No key repeats. An object literal may repeat a property name, but the later value then
   * replaces the earlier one in the earlier one's position, which this table does not model.
   */
  ghost predicate DistinctKeys(t: Table) {
    forall i, j | 0 <= i < j < |t| :: t[i].0 != t[j].0
  }

  /** Every key is non-empty and starts with an upper-case ASCII letter, so none is array-index-like. */
  ghost predicate KeysStartUpper(t: Table) {
    forall i | 0 <= i < |t| :: t[i].0 != "" && IsUpperAscii(t[i].0[0])
  }

  /** Joining two such tables gives another. */
  lemma KeysStartUpperOfConcat(a: Table, b: Table)
    requires KeysStartUpper(a) && KeysStartUpper(b)
    ensures KeysStartUpper(a + b)
  {
    forall i | 0 <= i < |a + b|
      ensures (a + b)[i].0 != "" && IsUpperAscii((a + b)[i].0[0])
    {
      if i >= |a| {
        assert (a + b)[i] == b[i - |a|];
      }
    }
  }

  // The crests, one constant per distinct URL; aliases of a club share one.

  /** Every crest is a file uploaded to Wikimedia, under the English Wikipedia or Commons. */
  function Upload(project: string, path: string): Url {
    "https://upload.wikimedia.org/wikipedia/" + project + "/" + path
  }

  const ManchesterCityLogo := Upload("en", "e/eb/Manchester_City_FC_badge.svg")
  const ManchesterUnitedLogo := Upload("en", "7/7a/Manchester_United_FC_crest.svg")
  const LiverpoolLogo := Upload("en", "0/0c/Liverpool_FC.svg")
  const ArsenalLogo := Upload("en", "5/53/Arsenal_FC.svg")
  const ChelseaLogo := Upload("en", "c/cc/Chelsea_FC.svg")
  const TottenhamHotspurLogo := Upload("en", "b/b4/Tottenham_Hotspur.svg")
  const EvertonLogo := Upload("en", "7/7c/Everton_FC_logo.svg")
  const LeicesterCityLogo := Upload("en", "2/2d/Leicester_City_crest.svg")
  const WolverhamptonWanderersLogo := Upload("en", "f/fc/Wolverhampton_Wanderers.svg")
  const FCBarcelonaLogo := Upload("en", "4/47/FC_Barcelona_%28crest%29.svg")
  const RealMadridLogo := Upload("en", "5/56/Real_Madrid_CF.svg")
  const AtleticoMadridLogo := Upload("en", "f/f4/Atletico_Madrid_2017_logo.svg")
  const SevillaFCLogo := Upload("en", "3/3b/Sevilla_FC_logo.svg")
  const RealSociedadLogo := Upload("en", "f/f1/Real_Sociedad_logo.svg")
  const RealBetisLogo := Upload("en", "1/13/Real_betis_logo.svg")
  const ValenciaCFLogo := Upload("en", "c/ce/Valenciacf.svg")
  const GetafeCFLogo := Upload("en", "7/7b/Getafe_CF_logo.svg")
  const RCCeltaLogo := Upload("en", "1/12/RC_Celta_de_Vigo_logo.svg")
  const JuventusLogo := Upload("commons", "1/15/Juventus_FC_2017_logo.svg")
  const InterLogo := Upload("commons", "0/05/FC_Internazionale_Milano_2021.svg")
  const MilanLogo := Upload("commons", "d/d0/Logo_of_AC_Milan.svg")
  const NapoliLogo := Upload("commons", "2/28/S.S.C._Napoli_logo_2017.svg")
  const RomaLogo := Upload("en", "f/f7/AS_Roma_logo_%282017%29.svg")
  const LazioLogo := Upload("en", "e/e4/SS_Lazio_badge_2022.svg")
  const AtalantaLogo := Upload("en", "6/62/Atalanta_BC_logo_2014.svg")
  const TorinoLogo := Upload("en", "2/2e/Torino_FC_Logo.svg")
  const CagliariLogo := Upload("en", "c/c1/Cagliari_Calcio_2015.svg")
  const FCBayernMunchenLogo := Upload("commons", "1/1f/FC_Bayern_M\U{00FC}nchen_logo_%282017%29.svg")
  const BorussiaDortmundLogo := Upload("commons", "6/67/Borussia_Dortmund_logo.svg")
  const RBLeipzigLogo := Upload("en", "0/04/RB_Leipzig_2014_logo.svg")
  const Bayer04LeverkusenLogo := Upload("en", "5/59/Bayer_04_Leverkusen_logo.svg")
  const BorussiaMonchengladbachLogo := Upload("commons", "8/81/Borussia_M\U{00F6}nchengladbach_logo.svg")
  const EintrachtFrankfurtLogo := Upload("commons", "0/04/Eintracht_Frankfurt_Logo.svg")
  const VflWolfsburgLogo := Upload("commons", "f/f3/VfL_Wolfsburg_Logo.svg")
  const ParisSaintGermainLogo := Upload("en", "a/a7/Paris_Saint-Germain_F.C..svg")
  const ASMonacoLogo := Upload("en", "b/ba/AS_Monaco_FC.svg")
  const OlympiqueLyonnaisLogo := Upload("en", "c/c6/Olympique_Lyonnais.svg")
  const LOSCLilleLogo := Upload("en", "4/41/Lille_OSC_logo.svg")
  const AjaxLogo := Upload("en", "7/79/Ajax_Amsterdam.svg")
  const FCPortoLogo := Upload("en", "f/f1/FC_Porto.svg")
  const SLBenficaLogo := Upload("en", "a/a2/SL_Benfica_logo.svg")
  const GremioLogo := Upload("en", "f/f1/Gremio.svg")
  const GuangzhouEvergrandeTaobaoFCLogo := Upload("en", "3/3b/Guangzhou_Evergrande_Taobao_F.C._logo.svg")
  const ShanghaiSIPGFCLogo := Upload("en", "8/83/Shanghai_SIPG_FC_logo.svg")

  /** Premier League. */
  const PremierLeague: Table := [
    ("Manchester City", ManchesterCityLogo),
    ("Man City", ManchesterCityLogo),
    ("Manchester United", ManchesterUnitedLogo),
    ("Man United", ManchesterUnitedLogo),
    ("Liverpool", LiverpoolLogo),
    ("Arsenal", ArsenalLogo),
    ("Chelsea", ChelseaLogo),
    ("Tottenham Hotspur", TottenhamHotspurLogo),
    ("Spurs", TottenhamHotspurLogo),
    ("Everton", EvertonLogo),
    ("Leicester City", LeicesterCityLogo),
    ("Wolverhampton Wanderers", WolverhamptonWanderersLogo),
    ("Wolves", WolverhamptonWanderersLogo)
  ]

  /** La Liga. */
  const LaLiga: Table := [
    ("FC Barcelona", FCBarcelonaLogo),
    ("Barcelona", FCBarcelonaLogo),
    ("Real Madrid", RealMadridLogo),
    ("Atl\U{00E9}tico Madrid", AtleticoMadridLogo),
    ("Sevilla FC", SevillaFCLogo),
    ("Real Sociedad", RealSociedadLogo),
    ("Real Betis", RealBetisLogo),
    ("Valencia CF", ValenciaCFLogo),
    ("Getafe CF", GetafeCFLogo),
    ("RC Celta", RCCeltaLogo)
  ]

  /** Serie A. */
  const SerieA: Table := [
    ("Juventus", JuventusLogo),
    ("Inter", InterLogo),
    ("Milan", MilanLogo),
    ("Napoli", NapoliLogo),
    ("Roma", RomaLogo),
    ("Lazio", LazioLogo),
    ("Atalanta", AtalantaLogo),
    ("Torino", TorinoLogo),
    ("Cagliari", CagliariLogo)
  ]

  /** Bundesliga. */
  const Bundesliga: Table := [
    ("FC Bayern M\U{00FC}nchen", FCBayernMunchenLogo),
    ("Borussia Dortmund", BorussiaDortmundLogo),
    ("Dortmund", BorussiaDortmundLogo),
    ("RB Leipzig", RBLeipzigLogo),
    ("Bayer 04 Leverkusen", Bayer04LeverkusenLogo),
    ("Borussia M\U{00F6}nchengladbach", BorussiaMonchengladbachLogo),
    ("Eintracht Frankfurt", EintrachtFrankfurtLogo),
    ("VfL Wolfsburg", VflWolfsburgLogo)
  ]

  /** Ligue 1. */
  const Ligue1: Table := [
    ("Paris Saint-Germain", ParisSaintGermainLogo),
    ("PSG", ParisSaintGermainLogo),
    ("AS Monaco", ASMonacoLogo),
    ("Olympique Lyonnais", OlympiqueLyonnaisLogo),
    ("LOSC Lille", LOSCLilleLogo)
  ]

  /** Other leagues. */
  const OtherLeagues: Table := [
    ("Ajax", AjaxLogo),
    ("FC Porto", FCPortoLogo),
    ("SL Benfica", SLBenficaLogo),
    ("Gr\U{00EA}mio", GremioLogo),
    ("Guangzhou Evergrande Taobao FC", GuangzhouEvergrandeTaobaoFCLogo),
    ("Shanghai SIPG FC", ShanghaiSIPGFCLogo)
  ]

  /** The club crest table, in its source order. */
  const ClubLogoTable: Table :=
    PremierLeague + LaLiga + SerieA + Bundesliga + Ligue1 + OtherLeagues

  // ---------------------------------------------------------------------------
  // normalizeKey
  // ---------------------------------------------------------------------------

  /** A character a normalised key may hold: lower-case ASCII letter, digit or underscore. */
  predicate IsKeyChar(c: char) {
    'a' <= c <= 'z' || '0' <= c <= '9' || c == '_'
  }

  /** `.replace(/\s+/g, "")`: every whitespace character is dropped, every other character kept. */
  function RemoveWhitespace(s: string): (r: string)
    ensures forall c | c in r :: c in s && !IsSpace(c)
    ensures forall c | c in s && !IsSpace(c) :: c in r
  {
    if s == [] then []
    else (if IsSpace(s[0]) then [] else [s[0]]) + RemoveWhitespace(s[1..])
  }

  /** `.replace(/[^\w]/g, "")`: every non-word character is dropped, every word character kept. */
  function RemoveNonWord(s: string): (r: string)
    ensures forall c | c in r :: c in s && IsWordChar(c)
    ensures forall c | c in s && IsWordChar(c) :: c in r
  {
    if s == [] then []
    else (if IsWordChar(s[0]) then [s[0]] else []) + RemoveNonWord(s[1..])
  }

  /**
   * `normalizeKey(s)`: `String(s || "")`, lower-cased, whitespace removed, non-word
   * characters removed. `None` is a missing value (`null` or `undefined`).
   */
  function NormalizeKey(s: Option<string>): (k: string)
    ensures forall i | 0 <= i < |k| :: IsKeyChar(k[i])
  {
    var str := s.GetOr("");
    var lowered := ToLowerCase(str);
    var k := RemoveNonWord(RemoveWhitespace(lowered));
    assert forall c | c in lowered :: !IsUpperAscii(c);
    assert forall i | 0 <= i < |k| :: k[i] in k && k[i] in lowered && IsWordChar(k[i]);
    k
  }

  /** Reference definition: one pass that keeps the lower-cased form of each word character. */
  function CanonicalKey(s: string): string {
    if s == [] then []
    else (if IsWordChar(LowerChar(s[0])) then [LowerChar(s[0])] else []) + CanonicalKey(s[1..])
  }

  // ---------------------------------------------------------------------------
  // getClubLogo
  // ---------------------------------------------------------------------------

  /** The three tiers of resolution, each a test on a table key. */
  datatype Tier =
    | Exact(name: string)             // the key is the query itself
    | NormalizedEqual(norm: string)   // the key normalises to the query's key
    | Fuzzy(norm: string)             // either normalised form contains the other

  predicate Hits(tier: Tier, key: string) {
    match tier
    case Exact(name) => key == name
    case NormalizedEqual(norm) => NormalizeKey(Some(key)) == norm
    case Fuzzy(norm) => Related(norm, NormalizeKey(Some(key)))
  }

  /** `a.includes(b) || b.includes(a)`. */
  predicate Related(a: string, b: string) {
    Contains(a, b) || Contains(b, a)
  }

  /** `name` is a property of the table: `clubLogoMap[name]` finds a value. */
  predicate IsKey(t: Table, name: string) {
    exists i | 0 <= i < |t| :: t[i].0 == name
  }

  /** The first index at or after `from` whose key passes `test`; `None` if there is none. */
  function FirstWhere(t: Table, test: string -> bool, from: nat): (r: Option<nat>)
    ensures r.Some? ==> from <= r.value < |t| && test(t[r.value].0)
                        && forall j | from <= j < r.value :: !test(t[j].0)
    ensures r.None? ==> forall j | from <= j < |t| :: !test(t[j].0)
    decreases |t| - from
  {
    if from >= |t| then None
    else if test(t[from].0) then Some(from)
    else FirstWhere(t, test, from + 1)
  }

  /** The first index at or after `from` whose key the tier hits; `None` if there is none. */
  function FirstHit(t: Table, tier: Tier, from: nat): (r: Option<nat>)
    ensures r.Some? ==> from <= r.value < |t| && Hits(tier, t[r.value].0)
                        && forall j | from <= j < r.value :: !Hits(tier, t[j].0)
    ensures r.None? ==> forall j | from <= j < |t| :: !Hits(tier, t[j].0)
  {
    FirstWhere(t, key => Hits(tier, key), from)
  }

  /** The value at the first index a tier hits. */
  function ValueOfFirstHit(t: Table, tier: Tier): Option<Url> {
    match FirstHit(t, tier, 0)
    case Some(i) => Some(t[i].1)
    case None => None
  }

  /** The scan of a tier stops at `j` when the tier hits entry `j` and no entry before it. */
  lemma FirstHitAt(t: Table, tier: Tier, j: nat)
    requires j < |t| && Hits(tier, t[j].0)
    requires forall i | 0 <= i < j :: !Hits(tier, t[i].0)
    ensures FirstHit(t, tier, 0) == Some(j)
  {
  }

  /** The scan of a tier finds nothing when the tier hits no entry. */
  lemma FirstHitNowhere(t: Table, tier: Tier)
    requires forall i | 0 <= i < |t| :: !Hits(tier, t[i].0)
    ensures FirstHit(t, tier, 0) == None
  {
  }

  /**
   * What `getClubLogo(name)` returns: `None` (null) for a missing or empty name, else the
   * value of the tier-1 key, else of the first tier-2 key, else of the first tier-3 key.
   */
  function ClubLogo(t: Table, name: Option<string>): Option<Url> {
    if name.None? || name.value == "" then None
    else if FirstHit(t, Exact(name.value), 0).Some? then ValueOfFirstHit(t, Exact(name.value))
    else
      var norm := NormalizeKey(name);
      if FirstHit(t, NormalizedEqual(norm), 0).Some? then ValueOfFirstHit(t, NormalizedEqual(norm))
      else ValueOfFirstHit(t, Fuzzy(norm))
  }

  /**
   * `getClubLogo(name)` over the table `t`: the property lookup, then the two scans of
   * the keys in table order, each returning at its first hit.
   */
  method GetClubLogo(t: Table, name: Option<string>) returns (r: Option<Url>)
    ensures r == ClubLogo(t, name)
  {
    if name.None? || name.value == "" {
      return None;
    }
    // Exact match: the property lookup `clubLogoMap[name]`; a value is never falsy.
    var exact := FirstHit(t, Exact(name.value), 0);
    if exact.Some? {
      return Some(t[exact.value].1);
    }
    // Normalised exact match.
    var norm := NormalizeKey(name);
    var i := 0;
    while i < |t|
      invariant 0 <= i <= |t|
      invariant FirstHit(t, NormalizedEqual(norm), i) == FirstHit(t, NormalizedEqual(norm), 0)
    {
      if NormalizeKey(Some(t[i].0)) == norm {
        return Some(t[i].1);
      }
      i := i + 1;
    }
    // Fuzzy includes, in either direction.
    i := 0;
    while i < |t|
      invariant 0 <= i <= |t|
      invariant FirstHit(t, Fuzzy(norm), i) == FirstHit(t, Fuzzy(norm), 0)
    {
      var nk := NormalizeKey(Some(t[i].0));
      if Contains(norm, nk) || Contains(nk, norm) {
        return Some(t[i].1);
      }
      i := i + 1;
    }
    return None;
  }

  // ---------------------------------------------------------------------------
  // Properties of normalizeKey
  // ---------------------------------------------------------------------------

  /** A missing or empty value normalises to the empty key. */
  lemma NormalizeKeyOfMissing()
    ensures NormalizeKey(None) == "" && NormalizeKey(Some("")) == ""
  {
  }

  /** The chain of lower-casing and two `replace` passes equals the one-pass reference. */
  lemma {:induction false} NormalizeKeyIsCanonicalKey(s: string)
    ensures NormalizeKey(Some(s)) == CanonicalKey(s)
  {
    if s != [] {
      var l := LowerChar(s[0]);
      var lowered := ToLowerCase(s[1..]);
      NormalizeKeyIsCanonicalKey(s[1..]);
      assert ToLowerCase(s) == [l] + lowered;
      assert ([l] + lowered)[1..] == lowered;
      var spaceless := RemoveWhitespace(lowered);
      if IsSpace(l) {
        assert RemoveWhitespace([l] + lowered) == spaceless;
      } else {
        assert RemoveWhitespace([l] + lowered) == [l] + spaceless;
        assert ([l] + spaceless)[1..] == spaceless;
      }
    }
  }

  /** `.replace(/\s+/g, "")` on one character: a space is dropped, any other character kept. */
  lemma RemoveWhitespaceOfChar(c: char)
    ensures RemoveWhitespace([c]) == if IsSpace(c) then [] else [c]
  {
    assert [c][1..] == [];
  }

  /** The whitespace pass works character by character, keeping order: it distributes over `+`. */
  lemma {:induction false} RemoveWhitespaceOfConcat(a: string, b: string)
    ensures RemoveWhitespace(a + b) == RemoveWhitespace(a) + RemoveWhitespace(b)
  {
    if a == [] {
      assert a + b == b;
    } else {
      assert (a + b)[1..] == a[1..] + b;
      RemoveWhitespaceOfConcat(a[1..], b);
    }
  }

  /** `.replace(/[^\w]/g, "")` on one character: a word character is kept, any other dropped. */
  lemma RemoveNonWordOfChar(c: char)
    ensures RemoveNonWord([c]) == if IsWordChar(c) then [c] else []
  {
    assert [c][1..] == [];
  }

  /** The non-word pass works character by character, keeping order: it distributes over `+`. */
  lemma {:induction false} RemoveNonWordOfConcat(a: string, b: string)
    ensures RemoveNonWord(a + b) == RemoveNonWord(a) + RemoveNonWord(b)
  {
    if a == [] {
      assert a + b == b;
    } else {
      assert (a + b)[1..] == a[1..] + b;
      RemoveNonWordOfConcat(a[1..], b);
    }
  }

  /** A string of key characters is its own canonical key. */
  lemma {:induction false} CanonicalKeyOfKey(s: string)
    requires forall i | 0 <= i < |s| :: IsKeyChar(s[i])
    ensures CanonicalKey(s) == s
  {
    if s != [] {
      CanonicalKeyOfKey(s[1..]);
    }
  }

  /** Normalising a normalised key changes nothing. */
  lemma NormalizeKeyIdempotent(s: Option<string>)
    ensures NormalizeKey(Some(NormalizeKey(s))) == NormalizeKey(s)
  {
    var k := NormalizeKey(s);
    NormalizeKeyIsCanonicalKey(k);
    CanonicalKeyOfKey(k);
  }

  // ---------------------------------------------------------------------------
  // Properties of getClubLogo
  // ---------------------------------------------------------------------------

  /** A missing or empty name resolves to null before any tier runs. */
  lemma ClubLogoOfMissingName(t: Table)
    ensures ClubLogo(t, None) == None && ClubLogo(t, Some("")) == None
  {
  }

  /** Tier 1: a key of the table resolves to its own value. */
  lemma KeyResolvesToItsValue(t: Table, i: nat)
    requires DistinctKeys(t) && i < |t| && t[i].0 != ""
    ensures ClubLogo(t, Some(t[i].0)) == Some(t[i].1)
  {
  }

  /** Every non-null result is the value of some entry of the table. */
  lemma ResultIsTableValue(t: Table, name: Option<string>)
    ensures ClubLogo(t, name).Some? ==>
              exists i | 0 <= i < |t| :: t[i].1 == ClubLogo(t, name).value
  {
  }

  /**
   * The result is null exactly when the name is missing or empty, or no key's normal
   * form contains, or is contained in, the name's normal form.
   */
  lemma NullIffNoRelatedKey(t: Table, name: Option<string>)
    ensures ClubLogo(t, name).None? <==>
              (name.None? || name.value == ""
               || forall i | 0 <= i < |t| :: !Related(NormalizeKey(name), NormalizeKey(Some(t[i].0))))
  {
    if name.Some? && name.value != "" {
      var norm := NormalizeKey(name);
      var exact := FirstHit(t, Exact(name.value), 0);
      var equal := FirstHit(t, NormalizedEqual(norm), 0);
      if exact.Some? {
        ContainsSelf(norm);
        assert Related(norm, NormalizeKey(Some(t[exact.value].0)));
      } else if equal.Some? {
        ContainsSelf(norm);
        assert Related(norm, NormalizeKey(Some(t[equal.value].0)));
      }
    }
  }

  /** A name that is not a key resolves through its normal form alone. */
  lemma OnlyNormalFormMatters(t: Table, a: string, b: string)
    requires a != "" && b != "" && !IsKey(t, a) && !IsKey(t, b)
    requires NormalizeKey(Some(a)) == NormalizeKey(Some(b))
    ensures ClubLogo(t, Some(a)) == ClubLogo(t, Some(b))
  {
  }

  /**
   * Tier 2 before tier 3: the first key with the same normal form wins, even when an
   * earlier key is related to the name by containment.
   */
  lemma NormalizedEqualBeatsFuzzy(t: Table, name: string, j: nat)
    requires name != "" && !IsKey(t, name)
    requires j < |t| && NormalizeKey(Some(t[j].0)) == NormalizeKey(Some(name))
    requires forall i | 0 <= i < j :: NormalizeKey(Some(t[i].0)) != NormalizeKey(Some(name))
    ensures ClubLogo(t, Some(name)) == Some(t[j].1)
  {
    FirstHitNowhere(t, Exact(name));
    FirstHitAt(t, NormalizedEqual(NormalizeKey(Some(name))), j);
  }

  /** Tier 3: with no key of the same normal form, the first related key wins. */
  lemma EarliestRelatedKeyWins(t: Table, name: string, j: nat)
    requires name != "" && !IsKey(t, name)
    requires forall i | 0 <= i < |t| :: NormalizeKey(Some(t[i].0)) != NormalizeKey(Some(name))
    requires j < |t| && Related(NormalizeKey(Some(name)), NormalizeKey(Some(t[j].0)))
    requires forall i | 0 <= i < j :: !Related(NormalizeKey(Some(name)), NormalizeKey(Some(t[i].0)))
    ensures ClubLogo(t, Some(name)) == Some(t[j].1)
  {
    var norm := NormalizeKey(Some(name));
    FirstHitNowhere(t, Exact(name));
    FirstHitNowhere(t, NormalizedEqual(norm));
    FirstHitAt(t, Fuzzy(norm), j);
  }

  /**
   * A name whose normal form is empty, such as "!!!", is contained in every key's normal
   * form, so when no key normalises to the empty string it resolves to the first entry.
   */
  lemma EmptyNormalFormTakesFirstEntry(t: Table, name: string)
    requires name != "" && !IsKey(t, name) && NormalizeKey(Some(name)) == ""
    requires |t| > 0 && forall i | 0 <= i < |t| :: NormalizeKey(Some(t[i].0)) != ""
    ensures ClubLogo(t, Some(name)) == Some(t[0].1)
  {
    ContainsEmpty(NormalizeKey(Some(t[0].0)));
  }

  /** A key that starts with an upper-case ASCII letter keeps that letter in its normal form. */
  lemma NormalFormOfUpperInitial(s: string)
    requires s != [] && IsUpperAscii(s[0])
    ensures NormalizeKey(Some(s)) != ""
  {
    NormalizeKeyIsCanonicalKey(s);
    assert IsWordChar(LowerChar(s[0]));
  }

  /**
   * Over a table whose keys all start with an upper-case ASCII letter, a name with an
   * empty normal form that does not start with such a letter resolves to the first entry.
   */
  lemma EmptyNormalFormOverUpperKeys(t: Table, name: string)
    requires KeysStartUpper(t) && |t| > 0
    requires name != "" && !IsUpperAscii(name[0]) && NormalizeKey(Some(name)) == ""
    ensures ClubLogo(t, Some(name)) == Some(t[0].1)
  {
    forall i | 0 <= i < |t|
      ensures NormalizeKey(Some(t[i].0)) != "" && t[i].0 != name
    {
      NormalFormOfUpperInitial(t[i].0);
    }
    EmptyNormalFormTakesFirstEntry(t, name);
  }

  /** Every key of the English, Spanish and Italian blocks starts with an upper-case ASCII letter. */
  lemma FirstLeagueKeysStartUpper()
    ensures KeysStartUpper(PremierLeague) && KeysStartUpper(LaLiga) && KeysStartUpper(SerieA)
  {
  }

  /** Every key of the German, French and remaining blocks starts with an upper-case ASCII letter. */
  lemma LastLeagueKeysStartUpper()
    ensures KeysStartUpper(Bundesliga) && KeysStartUpper(Ligue1) && KeysStartUpper(OtherLeagues)
  {
  }

  /** The crest table has 51 entries, and every key starts with an upper-case ASCII letter. */
  lemma ClubLogoTableKeys()
    ensures |ClubLogoTable| == 51 && KeysStartUpper(ClubLogoTable)
  {
    FirstLeagueKeysStartUpper();
    LastLeagueKeysStartUpper();
    KeysStartUpperOfConcat(PremierLeague, LaLiga);
    KeysStartUpperOfConcat(PremierLeague + LaLiga, SerieA);
    KeysStartUpperOfConcat(PremierLeague + LaLiga + SerieA, Bundesliga);
    KeysStartUpperOfConcat(PremierLeague + LaLiga + SerieA + Bundesliga, Ligue1);
    KeysStartUpperOfConcat(PremierLeague + LaLiga + SerieA + Bundesliga + Ligue1, OtherLeagues);
  }

  /** "!!!" normalises to the empty key, which every key of the crest table contains. */
  lemma PunctuationOnlyNameTakesFirstEntry()
    ensures ClubLogo(ClubLogoTable, Some("!!!")) == Some(ManchesterCityLogo)
  {
    var t := ClubLogoTable;
    ClubLogoTableKeys();
    NormalizeKeyIsCanonicalKey("!!!");
    assert CanonicalKey("!!!") == "";
    assert t[0] == PremierLeague[0];
    EmptyNormalFormOverUpperKeys(t, "!!!");
  }

  /** "Man City" and "Manchester City" are both keys of the crest table, with one crest. */
  lemma AliasesResolveAlike()
    ensures ClubLogo(ClubLogoTable, Some("Man City")) == Some(ManchesterCityLogo)
    ensures ClubLogo(ClubLogoTable, Some("Manchester City")) == Some(ManchesterCityLogo)
  {
    var t := ClubLogoTable;
    assert t[..2] == PremierLeague[..2];
    assert t[0] == ("Manchester City", ManchesterCityLogo);
    assert t[1] == ("Man City", ManchesterCityLogo);
    FirstHitAt(t, Exact("Manchester City"), 0);
    FirstHitAt(t, Exact("Man City"), 1);
  }
}

/**
 * The history token of the manager UI's tenant rules place: the place names a realm,
 * or none (Java null), and its tokenizer turns the place into the URL fragment token
 * and back.
 */
module RulesTenantPlace {
  import opened Wrappers

  /** A tenant rules place; `None` stands for a null realm. */
  datatype Place = Place(realm: Option<string>)

  /** Tokenizer.getPlace: a null or empty token gives a place without realm. */
  function GetPlace(token: Option<string>): (p: Place)
    ensures p.realm.None? <==> token.None? || token.value == ""
    ensures p.realm.Some? ==> p.realm == token
  {
    Place(if token.Some? && |token.value| > 0 then token else None)
  }

  /** Tokenizer.getToken: the realm, or the empty token for a place without realm. */
  function GetToken(place: Place): (t: string)
    ensures place.realm.Some? ==> t == place.realm.value
    ensures place.realm.None? ==> t == ""
  {
    if place.realm.Some? then place.realm.value else ""
  }

  /** Every non-null token survives a trip through its place, the empty token included. */
  lemma TokenRoundTrip(token: string)
    ensures GetToken(GetPlace(Some(token))) == token
  {
  }

  /** A place whose realm is null or non-empty survives a trip through its token. */
  lemma PlaceRoundTrip(place: Place)
    requires place.realm.None? || place.realm.value != ""
    ensures GetPlace(Some(GetToken(place))) == place
  {
  }

  /** An empty realm and a null realm give the same token, and come back as a null realm. */
  lemma EmptyRealmCollapses()
    ensures GetToken(Place(Some(""))) == GetToken(Place(None))
    ensures GetPlace(Some(GetToken(Place(Some(""))))) == Place(None)
  {
  }

  /** The null token is not restored: it comes back as the empty token. */
  lemma NullTokenBecomesEmpty()
    ensures GetToken(GetPlace(None)) == ""
  {
  }

  /** Parsing a printed place gives the same place again: getPlace already normalises. */
  lemma PlaceNormalForm(token: Option<string>)
    ensures GetPlace(Some(GetToken(GetPlace(token)))) == GetPlace(token)
  {
  }

  /** Two places with the same token are the same place, unless one realm is empty. */
  lemma GetTokenInjective(p: Place, q: Place)
    requires p.realm != Some("") && q.realm != Some("")
    requires GetToken(p) == GetToken(q)
    ensures p == q
  {
    PlaceRoundTrip(p);
    PlaceRoundTrip(q);
  }
}

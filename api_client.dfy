/** The shapes the web client exchanges with the API
    (health-republic-frontend/src/api/client.ts). The requests themselves are
    not modelled: a page receives each call's outcome as a parameter. */
module ApiClient {
  import opened Common

  /** `LoginResponse`. */
  datatype LoginResponse = LoginResponse(accessToken: string, refreshToken: string, tokenType: string)

  /** The `user` part of `MeResponse`. */
  datatype MeUser = MeUser(id: int, email: string, fullName: Option<string>, role: string)

  /** `NegotiationRound`. */
  datatype NegotiationRound = NegotiationRound(id: int, roundNumber: int, actor: string, proposedPmpm: Option<real>,
                                               proposedMlr: Option<real>, notes: Option<string>, createdAt: string)

  /** `Negotiation`; `rounds` is optional in the payload. */
  datatype Negotiation = Negotiation(id: int, status: string, targetPmpm: Option<real>,
                                     finalAgreedPmpm: Option<real>, finalExpectedMlr: Option<real>,
                                     rounds: Option<seq<NegotiationRound>>)

  /** `OfferEvaluation`. */
  datatype OfferEvaluation = OfferEvaluation(isAcceptable: bool, message: string, differenceFromTarget: Option<real>)

  /** `CollectiveSummary`. */
  datatype CollectiveSummary = CollectiveSummary(id: int, name: string, category: Option<string>, memberCount: int)

  /** The `localStorage` keys of the two tokens. */
  const AccessKey := "access_token"
  const RefreshKey := "refresh_token"

  /** `localStorage.getItem`: the stored string, or `null`. */
  function GetItem(storage: map<string, string>, key: string): (r: Option<string>)
    ensures r.Some? <==> key in storage
    ensures r.Some? ==> r.value == storage[key]
  {
    if key in storage then Some(storage[key]) else None
  }

  /** Both `localStorage.removeItem` calls of a sign-out. */
  function ClearTokens(storage: map<string, string>): (r: map<string, string>)
    ensures AccessKey !in r && RefreshKey !in r
    ensures forall k :: k in storage && k != AccessKey && k != RefreshKey ==> k in r && r[k] == storage[k]
    ensures r.Keys <= storage.Keys
  {
    storage - {AccessKey, RefreshKey}
  }

  /** Both `localStorage.setItem` calls of a sign-in. */
  function StoreTokens(storage: map<string, string>, tokens: LoginResponse): (r: map<string, string>)
    ensures GetItem(r, AccessKey) == Some(tokens.accessToken)
    ensures GetItem(r, RefreshKey) == Some(tokens.refreshToken)
    ensures forall k :: k in storage && k != AccessKey && k != RefreshKey ==> k in r && r[k] == storage[k]
    ensures r.Keys == storage.Keys + {AccessKey, RefreshKey}
  {
    storage[AccessKey := tokens.accessToken][RefreshKey := tokens.refreshToken]
  }

  /** The side effects a page performs, in the order it performs them. */
  datatype Effect =
    | SetItem(key: string, value: string)
    | RemoveItem(key: string)
    | RequestLogin(email: string, password: string)
    | RequestProfile(token: string)
    | Navigate(path: string)
}

/**
 * The administrator's preview of a catalogue entry
 * (app/api/admin/albums/preview-discogs/route.ts): the checks on the
 * request, the detail lookup, and the album shown, which is not saved.
 */
module PreviewDiscogs {
  import opened Wrappers
  import opened Js
  import opened Http
  import opened Discogs

  /** The role of the signed-in user, if there is a session. */
  type Session = Option<Option<string>>

  datatype PreviewRequest = PreviewRequest(discogsId: Option<string>, discogsType: Option<string>)

  datatype PreviewAlbum = PreviewAlbum(
    discogsId: string,
    discogsType: string,
    title: string,
    artist: string,
    year: Option<int>,
    coverImage: Option<string>,
    discogsArtistId: Option<string>)

  const NotAllowed := "Non autorisé"
  const IdRequired := "ID Discogs requis"
  const InvalidType := "Type invalide (master ou release)"
  const NotFoundOnDiscogs := "ID Discogs invalide ou introuvable sur Discogs"
  const PreviewFailed := "Erreur lors de la prévisualisation"

  /** A type that is given must be one of the two kinds. */
  predicate TypeAccepted(t: Option<string>) {
    !TruthyString(t) || t.value == "master" || t.value == "release"
  }

  /** `POST`: a body that is not JSON fails with 500. */
  function Preview(session: Session, body: Option<PreviewRequest>, token: string, endpoint: DetailsEndpoint): (r: Response<PreviewAlbum>)
    ensures (session.None? || session.value != Some("admin")) ==> r == Failure(Forbidden, NotAllowed)
    ensures r.Success? ==>
      && body.Some? && TruthyString(body.value.discogsId) && TypeAccepted(body.value.discogsType)
      && r.body.discogsId == body.value.discogsId.value
      && r.body.discogsType == OrString(body.value.discogsType, Some("master")).value
  {
    if session.None? || session.value != Some("admin") then Failure(Forbidden, NotAllowed)
    else if body.None? then Failure(ServerError, PreviewFailed)
    else
      var req := body.value;
      if !TruthyString(req.discogsId) then Failure(BadRequest, IdRequired)
      else if !TypeAccepted(req.discogsType) then Failure(BadRequest, InvalidType)
      else
        var details := GetDiscogsDetails(token, req.discogsId.value, KindOf(req.discogsType), endpoint);
        match details.result
        case Err(_) => Failure(BadRequest, NotFoundOnDiscogs)
        case Ok(a) =>
          Success(PreviewAlbum(req.discogsId.value, OrString(req.discogsType, Some("master")).value,
                               a.title, a.artist, a.year, a.coverImage, a.discogsArtistId))
  }

  /** The checks on the request, and what a lookup that fails gives. */
  lemma PreviewGuards(role: Option<string>, req: PreviewRequest, token: string, endpoint: DetailsEndpoint)
    requires role == Some("admin")
    ensures !TruthyString(req.discogsId) ==> Preview(Some(role), Some(req), token, endpoint) == Failure(BadRequest, IdRequired)
    ensures TruthyString(req.discogsId) && !TypeAccepted(req.discogsType) ==>
      Preview(Some(role), Some(req), token, endpoint) == Failure(BadRequest, InvalidType)
    ensures TruthyString(req.discogsId) && TypeAccepted(req.discogsType) ==>
      (Preview(Some(role), Some(req), token, endpoint).Success? <==>
       GetDiscogsDetails(token, req.discogsId.value, KindOf(req.discogsType), endpoint).result.Ok?)
    ensures (TruthyString(req.discogsId) && TypeAccepted(req.discogsType)
             && GetDiscogsDetails(token, req.discogsId.value, KindOf(req.discogsType), endpoint).result.Err?) ==>
      Preview(Some(role), Some(req), token, endpoint) == Failure(BadRequest, NotFoundOnDiscogs)
  {
  }

  /** A lookup that succeeds is shown as is, under the requested id and
      the requested type, 'master' when none is given. */
  lemma PreviewShowsLookup(req: PreviewRequest, token: string, endpoint: DetailsEndpoint, a: DiscogsAlbum)
    requires TruthyString(req.discogsId) && TypeAccepted(req.discogsType)
    requires GetDiscogsDetails(token, req.discogsId.value, KindOf(req.discogsType), endpoint).result == Ok(a)
    ensures Preview(Some(Some("admin")), Some(req), token, endpoint) ==
      Success(PreviewAlbum(req.discogsId.value, OrString(req.discogsType, Some("master")).value,
                           a.title, a.artist, a.year, a.coverImage, a.discogsArtistId))
  {
  }

  /** With no type given, the preview says 'master' even when the master
      lookup failed and the album came from the release endpoint. */
  lemma PreviewReportsMasterByDefault(id: string, token: string, endpoint: DetailsEndpoint)
    requires id != "" && token != ""
    requires !IsOk(endpoint(Master, id).outcome) && IsOk(endpoint(Release, id).outcome)
    ensures var r := Preview(Some(Some("admin")), Some(PreviewRequest(Some(id), None)), token, endpoint);
      && r.Success?
      && r.body.discogsType == "master"
      && r.body.title == AlbumFromRelease(endpoint(Release, id).body).title
  {
    var req := PreviewRequest(Some(id), None);
    var t := GetDiscogsDetails(token, id, KindOf(req.discogsType), endpoint);
    assert t.result == FetchDetails(token, Release, id, endpoint).result by {
      GetDiscogsDetailsDispatch(token, id, None, endpoint);
    }
    PreviewShowsLookup(req, token, endpoint, t.result.value);
  }
}

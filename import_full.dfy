/**
 * The full-list import (app/api/lists/import-full/route.ts): an uploaded
 * JSON export is checked, a list is created from its `list` part, and each
 * album row is reconciled with the album store one after the other --
 * reused when its Discogs id is known, looked up in the catalogue and
 * created when it is not, or created under a placeholder id -- before it is
 * entered in the list.
 *
 * The store is an album map keyed by Discogs id (the id is unique in the
 * store, and creating a second album under an id already present fails)
 * and a sequence of list entries that refer to albums by that id. The
 * reconciliation of rows takes the catalogue lookup as a function; the
 * route's own, `MasterLookup`, is the Discogs module's detail lookup of a
 * master. The session, the new list's id and the placeholder ids
 * (`unknown-` with a clock and random suffix) are parameters.
 */
module ImportFull {
  import opened Wrappers
  import opened Js
  import opened Http
  import opened Discogs

  /** One album row of the file; fields the file leaves out are `None`. */
  datatype AlbumRow = AlbumRow(
    rank: Option<int>,
    artist: Option<string>,
    title: Option<string>,
    year: Option<int>,
    discogsId: Option<string>,
    discogsArtistId: Option<string>,
    coverImage: Option<string>)

  /** The `list` part of the file. */
  datatype ListMeta = ListMeta(
    title: Option<string>,
    description: Option<string>,
    period: Option<string>,
    sourceUrl: Option<string>,
    isPublic: Option<bool>)

  /** The parsed file: `albums` is `None` when missing or not an array; an
      element of the array is `None` when it is `null`. */
  datatype Payload = Payload(list: Option<ListMeta>, albums: Option<seq<Option<AlbumRow>>>)

  /** The `file` field of the form: absent, not JSON, the JSON document
      `null`, or parsed. */
  datatype Upload = NoFile | Unparseable | NullDocument | Parsed(data: Payload)

  /** A created list. */
  datatype ListRecord = ListRecord(
    id: string,
    title: string,
    description: Option<string>,
    period: Option<string>,
    sourceUrl: Option<string>,
    isPublic: bool,
    userId: string)

  /** An album's place in a list; the album is named by its Discogs id. */
  datatype ListEntry = ListEntry(listId: string, albumId: string, position: int)

  const NotAuthorized := "Non autorisé"
  const FileMissing := "Fichier manquant"
  const InvalidJson := "Fichier JSON invalide"
  const InvalidFormat := "Format de fichier invalide. Le fichier doit contenir \"list\" et \"albums\""
  const DefaultTitle := "Liste importée"
  const InvalidRow := "Album invalide: données manquantes"
  const PlaceholderPrefix := "unknown-"
  const MasterType := "master"
  const ImportFailed := "Erreur lors de l'import"

  // ---------------------------------------------------------------------
  // The request (lines 11-37) and the new list (lines 42-51)

  /** What an accepted request carries: the user, the list part and the
      rows. */
  datatype Accepted = Accepted(userId: string, meta: ListMeta, rows: seq<Option<AlbumRow>>)

  /** The checks made before anything is stored: a session, then a file,
      then JSON, then both a `list` and an `albums` array. Reading `list`
      from a `null` document throws, and the route's outer `catch` answers
      500. */
  function CheckRequest(session: Option<string>, upload: Upload): (r: Response<Accepted>)
    ensures session.None? ==> r == Failure(Unauthorized, NotAuthorized)
    ensures session.Some? && upload.NoFile? ==> r == Failure(BadRequest, FileMissing)
    ensures session.Some? && upload.Unparseable? ==> r == Failure(BadRequest, InvalidJson)
    ensures session.Some? && upload.NullDocument? ==> r == Failure(ServerError, ImportFailed)
    ensures session.Some? && upload.Parsed? && (upload.data.list.None? || upload.data.albums.None?) ==>
      r == Failure(BadRequest, InvalidFormat)
    ensures r.Success? <==> session.Some? && upload.Parsed? && upload.data.list.Some? && upload.data.albums.Some?
    ensures r.Success? ==> r.body == Accepted(session.value, upload.data.list.value, upload.data.albums.value)
  {
    if session.None? then Failure(Unauthorized, NotAuthorized)
    else match upload
      case NoFile => Failure(BadRequest, FileMissing)
      case Unparseable => Failure(BadRequest, InvalidJson)
      case NullDocument => Failure(ServerError, ImportFailed)
      case Parsed(data) =>
        if data.list.None? || data.albums.None? then Failure(BadRequest, InvalidFormat)
        else Success(Accepted(session.value, data.list.value, data.albums.value))
  }

  /** The list created for an accepted file: an empty or missing title is
      "Liste importée", empty optional texts are null, and the list is
      private unless the file says it is public. */
  function NewList(id: string, meta: ListMeta, userId: string): (l: ListRecord)
    ensures l.id == id && l.userId == userId
    ensures TruthyString(meta.title) ==> l.title == meta.title.value
    ensures !TruthyString(meta.title) ==> l.title == DefaultTitle
    ensures l.description == (if TruthyString(meta.description) then meta.description else None)
    ensures l.period == (if TruthyString(meta.period) then meta.period else None)
    ensures l.sourceUrl == (if TruthyString(meta.sourceUrl) then meta.sourceUrl else None)
    ensures l.isPublic <==> meta.isPublic == Some(true)
  {
    ListRecord(id, OrString(meta.title, Some(DefaultTitle)).value,
               OrString(meta.description, None), OrString(meta.period, None), OrString(meta.sourceUrl, None),
               meta.isPublic.GetOr(false), userId)
  }

  // ---------------------------------------------------------------------
  // One row (lines 58-133)

  /** A row the loop imports: an artist and a title that are non-empty. */
  predicate Complete(row: AlbumRow) {
    TruthyString(row.artist) && TruthyString(row.title)
  }

  /** A row that names a catalogue entry: an id that is not a placeholder. */
  predicate HasCatalogueId(row: AlbumRow) {
    TruthyString(row.discogsId) && !StartsWith(row.discogsId.value, PlaceholderPrefix)
  }

  /** "artist - title", as the row is reported. */
  function Label(row: AlbumRow): (s: string)
    requires Complete(row)
    ensures |s| == |row.artist.value| + 3 + |row.title.value|
    ensures s[..|row.artist.value|] == row.artist.value && s[|s| - |row.title.value|..] == row.title.value
  {
    row.artist.value + " - " + row.title.value
  }

  /** The album made from the file's fields alone: empty or zero optional
      fields are null. */
  function FromFile(id: string, kind: Option<string>, row: AlbumRow): (a: StoredAlbum)
    requires Complete(row)
    ensures a.discogsId == id && a.discogsType == kind
    ensures a.title == row.title.value && a.artist == row.artist.value
    ensures a.year == (if TruthyInt(row.year) then row.year else None)
    ensures a.coverImage == (if TruthyString(row.coverImage) then row.coverImage else None)
    ensures a.discogsArtistId == (if TruthyString(row.discogsArtistId) then row.discogsArtistId else None)
  {
    StoredAlbum(id, row.title.value, row.artist.value, OrInt(row.year, None),
                OrString(row.coverImage, None), OrString(row.discogsArtistId, None), kind)
  }

  /** The album made from catalogue details: each catalogue field that is
      non-empty wins, and the file's field fills in for the others. */
  function FromDetails(id: string, d: DiscogsAlbum, row: AlbumRow): (a: StoredAlbum)
    requires Complete(row)
    ensures a.discogsId == id && a.discogsType == Some(MasterType)
    ensures a.title == (if d.title != "" then d.title else row.title.value)
    ensures a.artist == (if d.artist != "" then d.artist else row.artist.value)
    ensures a.year == OrInt(d.year, row.year)
    ensures a.coverImage == OrString(d.coverImage, row.coverImage)
    ensures a.discogsArtistId == OrString(d.discogsArtistId, row.discogsArtistId)
  {
    StoredAlbum(id, OrString(Some(d.title), row.title).value, OrString(Some(d.artist), row.artist).value,
                OrInt(d.year, row.year), OrString(d.coverImage, row.coverImage),
                OrString(d.discogsArtistId, row.discogsArtistId), Some(MasterType))
  }

  /** A catalogue lookup by Discogs id: the details found, or the error,
      and the endpoints asked. */
  type Lookup = string -> Traced<DiscogsAlbum, Kind>

  /** The lookup the route makes, `getDiscogsMasterDetails(id)`. */
  function MasterLookup(token: string, endpoint: DetailsEndpoint): Lookup {
    id => FetchDetails(token, Master, id, endpoint)
  }

  /** How a row's album is found: an album already stored, a new album and
      the catalogue endpoints asked for it, or a creation the store
      refused. */
  datatype Resolution = Reused(id: string) | Created(album: StoredAlbum, queried: seq<Kind>) | Rejected

  /** The album of a complete row. A catalogue id already stored is reused;
      one not yet stored is looked up as a master, and the album is created
      from the details, or from the file when the lookup fails, with type
      'master'. A row without a catalogue id creates an album with no type
      under its own id or, when it has none, under `placeholder`, and asks
      the catalogue nothing; that creation is refused when the id is already
      stored. */
  function Resolve(albums: map<string, StoredAlbum>, row: AlbumRow, placeholder: string,
                   lookup: Lookup): (r: Resolution)
    requires Complete(row)
    ensures HasCatalogueId(row) && row.discogsId.value in albums ==> r == Reused(row.discogsId.value)
    ensures HasCatalogueId(row) && row.discogsId.value !in albums ==>
      var id := row.discogsId.value;
      var fetched := lookup(id);
      && r.Created? && r.queried == fetched.queried
      && (fetched.result.Ok? ==> r.album == FromDetails(id, fetched.result.value, row))
      && (fetched.result.Err? ==> r.album == FromFile(id, Some(MasterType), row))
    ensures !HasCatalogueId(row) ==>
      var id := if TruthyString(row.discogsId) then row.discogsId.value else placeholder;
      && (id in albums ==> r == Rejected)
      && (id !in albums ==> r == Created(FromFile(id, None, row), []))
  {
    if HasCatalogueId(row) then
      var id := row.discogsId.value;
      if id in albums then Reused(id)
      else
        var fetched := lookup(id);
        match fetched.result
        case Ok(details) => Created(FromDetails(id, details, row), fetched.queried)
        case Err(_) => Created(FromFile(id, Some(MasterType), row), fetched.queried)
    else
      var id := OrString(row.discogsId, Some(placeholder)).value;
      if id in albums then Rejected else Created(FromFile(id, None, row), [])
  }

  /** The rows imported so far, the errors so far, and the store. */
  datatype Progress = Progress(
    albums: map<string, StoredAlbum>,
    entries: seq<ListEntry>,
    imported: seq<string>,
    errors: seq<string>)

  /** The position of a row's entry: its rank when non-zero, otherwise the
      number of rows imported before it. */
  function Position(row: AlbumRow, importedSoFar: nat): (pos: int)
    ensures TruthyInt(row.rank) ==> pos == row.rank.value
    ensures !TruthyInt(row.rank) ==> pos == importedSoFar
  {
    OrInt(row.rank, Some(importedSoFar)).value
  }

  /** One pass of the loop: an incomplete row is an error and touches
      nothing; a refused creation is an error naming the row; otherwise the
      album is stored when new, an entry is added at the row's position
      and the row counts as imported. */
  function ImportRow(p: Progress, listId: string, row: AlbumRow, placeholder: string,
                     lookup: Lookup): (q: Progress)
    ensures !Complete(row) ==> q == p.(errors := p.errors + [InvalidRow])
    ensures Complete(row) && Resolve(p.albums, row, placeholder, lookup).Rejected? ==>
      q == p.(errors := p.errors + ["Erreur: " + Label(row)])
    ensures Complete(row) && Resolve(p.albums, row, placeholder, lookup).Reused? ==>
      var id := Resolve(p.albums, row, placeholder, lookup).id;
      q == Progress(p.albums, p.entries + [ListEntry(listId, id, Position(row, |p.imported|))],
                    p.imported + [Label(row)], p.errors)
    ensures Complete(row) && Resolve(p.albums, row, placeholder, lookup).Created? ==>
      var a := Resolve(p.albums, row, placeholder, lookup).album;
      q == Progress(p.albums[a.discogsId := a], p.entries + [ListEntry(listId, a.discogsId, Position(row, |p.imported|))],
                    p.imported + [Label(row)], p.errors)
  {
    if !Complete(row) then p.(errors := p.errors + [InvalidRow])
    else
      var entry := (id: string) => ListEntry(listId, id, Position(row, |p.imported|));
      match Resolve(p.albums, row, placeholder, lookup)
      case Rejected => p.(errors := p.errors + ["Erreur: " + Label(row)])
      case Reused(id) => Progress(p.albums, p.entries + [entry(id)], p.imported + [Label(row)], p.errors)
      case Created(a, _) => Progress(p.albums[a.discogsId := a], p.entries + [entry(a.discogsId)], p.imported + [Label(row)], p.errors)
  }

  /** The rows before the first `null` one. A `null` row is destructured
      before the row's own `try` (line 58), so it throws out of the loop. */
  function Leading(rows: seq<Option<AlbumRow>>): (lead: seq<AlbumRow>)
    ensures |lead| <= |rows|
    ensures forall i :: 0 <= i < |lead| ==> rows[i] == Some(lead[i])
    ensures |lead| < |rows| ==> rows[|lead|].None?
  {
    if rows == [] || rows[0].None? then [] else [rows[0].value] + Leading(rows[1..])
  }

  /** The first `n` rows, in order; row `i` gets placeholder
      `placeholders(i)`. */
  function ImportRows(p: Progress, listId: string, rows: seq<AlbumRow>, n: nat, placeholders: nat -> string,
                      lookup: Lookup): (q: Progress)
    requires n <= |rows|
    ensures |q.imported| + |q.errors| == |p.imported| + |p.errors| + n
  {
    if n == 0 then p
    else ImportRow(ImportRows(p, listId, rows, n - 1, placeholders, lookup),
                   listId, rows[n - 1], placeholders(n - 1), lookup)
  }

  /** A row that is reused or that has no catalogue id is resolved without
      the catalogue: the lookup makes no difference. */
  lemma ResolveWithoutLookup(albums: map<string, StoredAlbum>, row: AlbumRow, placeholder: string,
                             lookup: Lookup, lookup': Lookup)
    requires Complete(row)
    requires !HasCatalogueId(row) || row.discogsId.value in albums
    ensures Resolve(albums, row, placeholder, lookup) == Resolve(albums, row, placeholder, lookup')
    ensures !Resolve(albums, row, placeholder, lookup).Created? ||
            Resolve(albums, row, placeholder, lookup).queried == []
  {
  }

  // ---------------------------------------------------------------------
  // The whole loop (lines 53-134)

  /** One row either adds one error and nothing else, or adds one entry,
      for this list at the row's position, and one imported name. */
  lemma RowStep(p: Progress, listId: string, row: AlbumRow, placeholder: string,
                lookup: Lookup)
    ensures var q := ImportRow(p, listId, row, placeholder, lookup);
      || (|q.errors| == |p.errors| + 1 && p.errors <= q.errors && q.entries == p.entries && q.imported == p.imported)
      || (&& q.errors == p.errors && q.imported == p.imported + [Label(row)]
          && q.entries == p.entries + [ListEntry(listId, q.entries[|p.entries|].albumId, Position(row, |p.imported|))]
          && q.entries[|p.entries|].albumId in q.albums)
  {
  }

  /** Every row ends up either imported or in the errors, one entry is
      added per imported row, and what was there before is kept as a
      prefix. */
  lemma {:induction false} ImportAccounts(p: Progress, listId: string, rows: seq<AlbumRow>, n: nat,
                                          placeholders: nat -> string, lookup: Lookup)
    requires n <= |rows|
    ensures var q := ImportRows(p, listId, rows, n, placeholders, lookup);
      && |q.imported| + |q.errors| == |p.imported| + |p.errors| + n
      && |q.entries| - |p.entries| == |q.imported| - |p.imported|
      && p.entries <= q.entries && p.imported <= q.imported && p.errors <= q.errors
  {
    if n > 0 {
      ImportAccounts(p, listId, rows, n - 1, placeholders, lookup);
      var m := ImportRows(p, listId, rows, n - 1, placeholders, lookup);
      RowStep(m, listId, rows[n - 1], placeholders(n - 1), lookup);
    }
  }

  /** Albums are stored under their own Discogs id. */
  ghost predicate Keyed(albums: map<string, StoredAlbum>) {
    forall k :: k in albums ==> albums[k].discogsId == k
  }

  /** The import only adds albums: every album stored before is still
      stored, unchanged, and albums stay keyed by their id. */
  lemma {:induction false} ImportKeepsAlbums(p: Progress, listId: string, rows: seq<AlbumRow>, n: nat,
                                             placeholders: nat -> string, lookup: Lookup)
    requires n <= |rows|
    ensures var q := ImportRows(p, listId, rows, n, placeholders, lookup);
      forall k :: k in p.albums ==> k in q.albums && q.albums[k] == p.albums[k]
    ensures Keyed(p.albums) ==> Keyed(ImportRows(p, listId, rows, n, placeholders, lookup).albums)
  {
    if n > 0 {
      ImportKeepsAlbums(p, listId, rows, n - 1, placeholders, lookup);
      var m := ImportRows(p, listId, rows, n - 1, placeholders, lookup);
      RowKeepsAlbums(m, listId, rows[n - 1], placeholders(n - 1), lookup);
    }
  }

  /** One row never replaces a stored album: a new album goes under an id
      not stored yet. */
  lemma RowKeepsAlbums(p: Progress, listId: string, row: AlbumRow, placeholder: string,
                       lookup: Lookup)
    ensures var q := ImportRow(p, listId, row, placeholder, lookup);
      forall k :: k in p.albums ==> k in q.albums && q.albums[k] == p.albums[k]
    ensures Keyed(p.albums) ==> Keyed(ImportRow(p, listId, row, placeholder, lookup).albums)
  {
    if Complete(row) {
      var r := Resolve(p.albums, row, placeholder, lookup);
      if r.Created? {
        assert r.album.discogsId !in p.albums;
      }
    }
  }

  /** Every entry names a stored album, and the entries added belong to
      the new list. */
  lemma {:induction false} ImportEntriesResolve(p: Progress, listId: string, rows: seq<AlbumRow>, n: nat,
                                                placeholders: nat -> string, lookup: Lookup)
    requires n <= |rows|
    requires forall e :: e in p.entries ==> e.albumId in p.albums
    ensures var q := ImportRows(p, listId, rows, n, placeholders, lookup);
      && (forall e :: e in q.entries ==> e.albumId in q.albums)
      && |p.entries| <= |q.entries|
      && (forall j :: |p.entries| <= j < |q.entries| ==> q.entries[j].listId == listId)
  {
    if n > 0 {
      ImportEntriesResolve(p, listId, rows, n - 1, placeholders, lookup);
      var m := ImportRows(p, listId, rows, n - 1, placeholders, lookup);
      var q := ImportRows(p, listId, rows, n, placeholders, lookup);
      RowKeepsAlbums(m, listId, rows[n - 1], placeholders(n - 1), lookup);
      RowStep(m, listId, rows[n - 1], placeholders(n - 1), lookup);
      forall e | e in q.entries ensures e.albumId in q.albums {
        if e !in m.entries {
          assert e == q.entries[|m.entries|];
        }
      }
    }
  }

  /** When no row has a rank and every row is imported, the entries are
      numbered 0, 1, 2, ... in file order. */
  lemma {:induction false} ImportNumbersInOrder(p: Progress, listId: string, rows: seq<AlbumRow>, n: nat,
                                                placeholders: nat -> string, lookup: Lookup)
    requires n <= |rows|
    requires p.imported == [] && p.entries == []
    requires forall i :: 0 <= i < n ==> !TruthyInt(rows[i].rank)
    requires |ImportRows(p, listId, rows, n, placeholders, lookup).errors| == |p.errors|
    ensures var q := ImportRows(p, listId, rows, n, placeholders, lookup);
      |q.entries| == n && forall j :: 0 <= j < n ==> q.entries[j].position == j
  {
    if n > 0 {
      var m := ImportRows(p, listId, rows, n - 1, placeholders, lookup);
      var q := ImportRows(p, listId, rows, n, placeholders, lookup);
      ImportAccounts(p, listId, rows, n - 1, placeholders, lookup);
      RowStep(m, listId, rows[n - 1], placeholders(n - 1), lookup);
      assert q.errors == m.errors && |m.imported| == n - 1;
      ImportNumbersInOrder(p, listId, rows, n - 1, placeholders, lookup);
      forall j | 0 <= j < n ensures q.entries[j].position == j {
        if j < n - 1 {
          assert q.entries[j] == m.entries[j];
        }
      }
    }
  }

  // ---------------------------------------------------------------------
  // The answer (lines 136-143)

  /** What a completed import answers. */
  datatype Summary = Summary(listId: string, listTitle: string, imported: nat, errors: seq<string>, message: string)

  /** `Liste "<title>" créée avec N albums`, followed by `, K erreurs` only
      when there are errors. */
  function SummaryMessage(title: string, imported: nat, errors: nat): (m: string)
    ensures errors == 0 ==> m == SummaryHead(title, imported)
    ensures errors > 0 ==> m == SummaryHead(title, imported) + ", " + IntToString(errors) + " erreurs"
  {
    SummaryHead(title, imported) + (if errors > 0 then ", " + IntToString(errors) + " erreurs" else "")
  }

  function SummaryHead(title: string, imported: nat): string {
    "Liste \"" + title + "\" créée avec " + IntToString(imported) + " albums"
  }

  /** The message ends with " albums" exactly when there is no error, and
      otherwise the count it appends reads back as the number of errors. */
  lemma SummaryMentionsErrorsOnlyWhenSome(title: string, imported: nat, errors: nat)
    ensures errors == 0 <==> EndsWith(SummaryMessage(title, imported, errors), " albums")
    ensures errors > 0 ==>
      var m := SummaryMessage(title, imported, errors);
      var tail := m[|SummaryHead(title, imported)| + 2..];
      |tail| >= 8 && ParseInt(tail[..|tail| - 8]) == Some(errors)
  {
    if errors == 0 {
      EndsWithAppend("Liste \"" + title + "\" créée avec " + IntToString(imported), " albums");
    } else {
      SummaryWithErrors(title, imported, errors);
    }
  }

  /** With errors, the message ends with the error count and " erreurs". */
  lemma SummaryWithErrors(title: string, imported: nat, errors: nat)
    requires errors > 0
    ensures !EndsWith(SummaryMessage(title, imported, errors), " albums")
    ensures var m := SummaryMessage(title, imported, errors);
      var tail := m[|SummaryHead(title, imported)| + 2..];
      |tail| >= 8 && ParseInt(tail[..|tail| - 8]) == Some(errors)
  {
    var head := SummaryHead(title, imported);
    var e := IntToString(errors);
    var errorsWord := " erreurs";
    var m := head + ", " + e + errorsWord;
    assert SummaryMessage(title, imported, errors) == m;
    assert m[|m| - 7] == 'e';
    assert m[|head| + 2..] == e + errorsWord;
    assert (e + errorsWord)[..|e|] == e;
    ParseIntToString(errors);
  }

  /** A concatenation ends with its second part. */
  lemma EndsWithAppend(a: string, b: string)
    ensures EndsWith(a + b, b)
  {
    assert (a + b)[|a|..] == b;
  }

  // ---------------------------------------------------------------------
  // The route (lines 7-151)

  /** The lists, albums and list entries of the database. */
  class Database {
    var lists: seq<ListRecord>
    var albums: map<string, StoredAlbum>
    var entries: seq<ListEntry>

    constructor(albums: map<string, StoredAlbum>)
      ensures this.albums == albums && lists == [] && entries == []
    {
      this.albums := albums;
      lists := [];
      entries := [];
    }

    /** Finding or creating the album of a complete row (lines 66-118):
        the id the row's entry refers to, or `None` when the store refuses
        the new album. */
    method StoreAlbum(row: AlbumRow, placeholder: string, token: string, endpoint: DetailsEndpoint)
      returns (albumId: Option<string>)
      requires Complete(row)
      modifies this
      ensures lists == old(lists) && entries == old(entries)
      ensures var r := Resolve(old(albums), row, placeholder, MasterLookup(token, endpoint));
        && (r.Rejected? ==> albumId.None? && albums == old(albums))
        && (r.Reused? ==> albumId == Some(r.id) && albums == old(albums))
        && (r.Created? ==> albumId == Some(r.album.discogsId) && albums == old(albums)[r.album.discogsId := r.album])
    {
      if TruthyString(row.discogsId) && !StartsWith(row.discogsId.value, PlaceholderPrefix) {
        var id := row.discogsId.value;
        if id !in albums {
          var fetched := FetchDetails(token, Master, id, endpoint);
          if fetched.result.Ok? {
            albums := albums[id := FromDetails(id, fetched.result.value, row)];
          } else {
            albums := albums[id := FromFile(id, Some(MasterType), row)];
          }
        }
        albumId := Some(id);
      } else {
        var id := if TruthyString(row.discogsId) then row.discogsId.value else placeholder;
        if id in albums {
          return None;
        }
        albums := albums[id := FromFile(id, None, row)];
        albumId := Some(id);
      }
    }

    /** One pass of the loop over the rows, on the store. */
    method ImportOne(listId: string, row: AlbumRow, placeholder: string, token: string, endpoint: DetailsEndpoint,
                     imported: seq<string>, errors: seq<string>) returns (imported': seq<string>, errors': seq<string>)
      modifies this
      ensures lists == old(lists)
      ensures Progress(albums, entries, imported', errors') ==
        ImportRow(Progress(old(albums), old(entries), imported, errors), listId, row, placeholder, MasterLookup(token, endpoint))
    {
      imported', errors' := imported, errors;
      if !TruthyString(row.artist) || !TruthyString(row.title) {
        errors' := errors + [InvalidRow];
        return;
      }
      var rowName := row.artist.value + " - " + row.title.value;
      var albumId := StoreAlbum(row, placeholder, token, endpoint);
      if albumId.None? {
        errors' := errors + ["Erreur: " + rowName];
        return;
      }
      entries := entries + [ListEntry(listId, albumId.value, Position(row, |imported|))];
      imported' := imported + [rowName];
    }

    /** The loop over the rows (lines 57-134): each row in turn, until a
        `null` row throws out of it. `completed` is false when it did. */
    method ImportAll(listId: string, rows: seq<Option<AlbumRow>>, placeholders: nat -> string,
                     token: string, endpoint: DetailsEndpoint)
      returns (imported: seq<string>, errors: seq<string>, completed: bool)
      modifies this
      ensures lists == old(lists)
      ensures completed <==> |Leading(rows)| == |rows|
      ensures Progress(albums, entries, imported, errors) ==
        ImportRows(Progress(old(albums), old(entries), [], []), listId, Leading(rows), |Leading(rows)|,
                   placeholders, MasterLookup(token, endpoint))
    {
      ghost var start := Progress(albums, entries, [], []);
      ghost var lead := Leading(rows);
      ghost var lookup := MasterLookup(token, endpoint);
      imported, errors := [], [];
      for i := 0 to |rows|
        invariant lists == old(lists)
        invariant i <= |lead|
        invariant Progress(albums, entries, imported, errors) == ImportRows(start, listId, lead, i, placeholders, lookup)
      {
        if rows[i].None? {
          assert i == |lead|;
          return imported, errors, false;
        }
        assert i < |lead| && rows[i] == Some(lead[i]);
        ghost var before := Progress(albums, entries, imported, errors);
        imported, errors := ImportOne(listId, rows[i].value, placeholders(i), token, endpoint, imported, errors);
        assert ImportRows(start, listId, lead, i + 1, placeholders, lookup)
          == ImportRow(before, listId, lead[i], placeholders(i), lookup);
      }
      completed := true;
    }

    /** `POST`: a rejected request changes nothing; an accepted one creates
        the list, then imports the rows one after the other, as
        `ImportRows` describes, and answers with the counts and the
        errors. A `null` row ends the loop with the outer `catch`'s 500,
        leaving the list and the rows imported before it in the store. */
    method ImportFull(session: Option<string>, upload: Upload, listId: string, placeholders: nat -> string,
                      token: string, endpoint: DetailsEndpoint) returns (r: Response<Summary>)
      modifies this
      ensures CheckRequest(session, upload).Failure? ==>
        && r == Failure(CheckRequest(session, upload).status, CheckRequest(session, upload).message)
        && lists == old(lists) && albums == old(albums) && entries == old(entries)
      ensures CheckRequest(session, upload).Success? ==>
        var req := CheckRequest(session, upload).body;
        var list := NewList(listId, req.meta, req.userId);
        var lead := Leading(req.rows);
        var q := ImportRows(Progress(old(albums), old(entries), [], []), listId, lead, |lead|,
                            placeholders, MasterLookup(token, endpoint));
        && lists == old(lists) + [list]
        && albums == q.albums && entries == q.entries
        && (|lead| == |req.rows| ==>
              r == Success(Summary(listId, list.title, |q.imported|, q.errors,
                                   SummaryMessage(list.title, |q.imported|, |q.errors|))))
        && (|lead| < |req.rows| ==> r == Failure(ServerError, ImportFailed))
    {
      if session.None? {
        return Failure(Unauthorized, NotAuthorized);
      }
      if upload.NoFile? {
        return Failure(BadRequest, FileMissing);
      }
      if upload.Unparseable? {
        return Failure(BadRequest, InvalidJson);
      }
      if upload.NullDocument? {
        return Failure(ServerError, ImportFailed);
      }
      var data := upload.data;
      if data.list.None? || data.albums.None? {
        return Failure(BadRequest, InvalidFormat);
      }
      var list := NewList(listId, data.list.value, session.value);
      lists := lists + [list];
      var imported, errors, completed := ImportAll(listId, data.albums.value, placeholders, token, endpoint);
      if !completed {
        return Failure(ServerError, ImportFailed);
      }
      r := Success(Summary(listId, list.title, |imported|, errors, SummaryMessage(list.title, |imported|, |errors|)));
    }
  }
}

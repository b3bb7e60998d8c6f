/**
 * The nested API responses that anilist_api_caller.py flattens, the flat row
 * records it builds from them, and what those rows are.  A response object
 * is a datatype mirroring the shape the GraphQL queries ask for; a row
 * record (a Python dict) is a map from column name to value.
 */
module AniListRows {
  import opened Wrappers
  import opened Seqs

  /** A JSON scalar or value, as a response field holds it; Null is JSON null (Python None). */
  datatype Value =
    | Null
    | Int(i: int)
    | Str(s: string)
    | Bool(b: bool)
    | List(items: seq<Value>)
    | Obj(fields: map<string, Value>)

  type Row = map<string, Value>

  // ---------------------------------------------------------------------
  // Response shapes
  // ---------------------------------------------------------------------

  datatype TitleName = TitleName(english: Value, romaji: Value)

  datatype ReviewMedia = ReviewMedia(id: Value, title: TitleName)
  datatype ReviewUser = ReviewUser(id: Value)
  /** A review node; `user` is None for the few reviews the API returns without a user. */
  datatype ReviewNode = ReviewNode(
    id: Value, media: ReviewMedia, user: Option<ReviewUser>,
    rating: Value, summary: Value, score: Value, ratingAmount: Value, body: Value)
  datatype ReviewEdge = ReviewEdge(node: ReviewNode)
  datatype Reviews = Reviews(edges: seq<ReviewEdge>)

  datatype Tag = Tag(id: Value, name: Value, category: Value, rank: Value)

  datatype Studio = Studio(id: Value, name: Value)
  datatype Studios = Studios(nodes: seq<Studio>)

  datatype FullName = FullName(full: Value)
  datatype StaffMember = StaffMember(id: Value, name: FullName, languageV2: Value)
  datatype Staff = Staff(nodes: seq<StaffMember>)

  /** Entries of the score and status distributions and of the rankings; their labels become column names. */
  datatype ScoreAmount = ScoreAmount(score: int, amount: Value)
  datatype StatusAmount = StatusAmount(status: string, amount: Value)
  datatype Stats = Stats(scoreDistribution: seq<ScoreAmount>, statusDistribution: seq<StatusAmount>)
  datatype Ranking = Ranking(rankType: string, rank: Value)
  datatype StartDate = StartDate(year: Value)

  /** One element of `Page.media` in the titles query. */
  datatype Media = Media(
    id: Value, title: TitleName, mediaType: Value, duration: Value, startDate: StartDate,
    chapters: Value, volumes: Value, status: Value, countryOfOrigin: Value, isAdult: Value,
    genres: Value, averageScore: Value, meanScore: Value, popularity: Value, favourites: Value,
    stats: Stats, rankings: seq<Ranking>, description: Value, coverImage: Value,
    studios: Studios, staff: Staff, tags: seq<Tag>, reviews: Reviews)

  datatype FavoriteNode = FavoriteNode(id: Value, nodeType: Value, title: TitleName)
  datatype FavoriteNodes = FavoriteNodes(nodes: seq<FavoriteNode>)
  datatype Favourites = Favourites(anime: FavoriteNodes, manga: FavoriteNodes)
  datatype Avatar = Avatar(medium: Value)
  /** One element of `Page.users` in the users query. */
  datatype User = User(id: Value, about: Value, avatar: Avatar, favourites: Favourites)

  datatype ListEntry = ListEntry(id: Value, userId: Value, mediaId: Value, status: Value, repeat: Value)
  /** One element of `MediaListCollection.lists`. */
  datatype MediaList = MediaList(entries: seq<ListEntry>)

  datatype Image = Image(large: Value)
  datatype CharacterNode = CharacterNode(id: Value, name: FullName, image: Image)
  datatype Characters = Characters(nodes: seq<CharacterNode>)
  /** One element of `Page.media` in the characters query. */
  datatype CharacterMedia = CharacterMedia(id: Value, title: TitleName, characters: Characters)

  // ---------------------------------------------------------------------
  // Python's str() of an int, used by "score_%s" % score
  // ---------------------------------------------------------------------

  function NatToString(n: nat): (s: string)
    ensures |s| > 0
  {
    if n < 10 then ["0123456789"[n]] else NatToString(n / 10) + ["0123456789"[n % 10]]
  }

  function IntToString(i: int): string
  {
    if i < 0 then "-" + NatToString(-i) else NatToString(i)
  }

  /** Every character of the decimal form is a digit. */
  lemma {:induction false} NatToStringDigits(n: nat)
    ensures forall k :: 0 <= k < |NatToString(n)| ==> NatToString(n)[k] in "0123456789"
  {
    if n >= 10 {
      NatToStringDigits(n / 10);
      var s := NatToString(n);
      forall k | 0 <= k < |s| ensures s[k] in "0123456789" {
        if k < |s| - 1 {
          assert s[k] == NatToString(n / 10)[k];
        }
      }
    }
  }

  /** Distinct digits have distinct characters. */
  lemma DigitInjective(a: nat, b: nat)
    requires a < 10 && b < 10 && "0123456789"[a] == "0123456789"[b]
    ensures a == b
  {
  }

  /** A natural below 10 has a one-character decimal form; any other has a longer one. */
  lemma NatToStringLength(n: nat)
    ensures n < 10 <==> |NatToString(n)| == 1
  {
    if n >= 10 {
      assert |NatToString(n)| == |NatToString(n / 10)| + 1;
    }
  }

  /** Two naturals with the same decimal form are equal. */
  lemma {:induction false} NatToStringInjective(a: nat, b: nat)
    requires NatToString(a) == NatToString(b)
    ensures a == b
  {
    var sa, sb := NatToString(a), NatToString(b);
    NatToStringLength(a);
    NatToStringLength(b);
    if a < 10 {
      assert b < 10 && sa[0] == sb[0];
      DigitInjective(a, b);
    } else {
      assert b >= 10;
      var pa, pb := NatToString(a / 10), NatToString(b / 10);
      assert sa == pa + ["0123456789"[a % 10]] && sb == pb + ["0123456789"[b % 10]];
      assert |pa| == |pb|;
      assert pa == sa[..|pa|] && pb == sb[..|pb|];
      NatToStringInjective(a / 10, b / 10);
      assert sa[|pa|] == sb[|pb|];
      DigitInjective(a % 10, b % 10);
    }
  }

  /** str() of an int starts with '-' exactly when the int is negative. */
  lemma IntToStringSign(i: int)
    ensures |IntToString(i)| > 0 && (IntToString(i)[0] == '-' <==> i < 0)
    ensures i < 0 ==> IntToString(i)[1..] == NatToString(-i)
  {
    if i >= 0 {
      NatToStringDigits(i);
      assert NatToString(i)[0] in "0123456789";
    }
  }

  /** str() of an int is one-to-one: distinct ints have distinct decimal forms. */
  lemma IntToStringInjective(a: int, b: int)
    ensures IntToString(a) == IntToString(b) <==> a == b
  {
    if IntToString(a) == IntToString(b) {
      IntToStringSign(a);
      IntToStringSign(b);
      if a < 0 {
        NatToStringInjective(-a, -b);
      } else {
        NatToStringInjective(a, b);
      }
    }
  }

  // ---------------------------------------------------------------------
  // Row builders, one per dict the source fills in
  // ---------------------------------------------------------------------

  function ReviewRow(n: ReviewNode): Row
  {
    map[
      "review_id" := n.id,
      "title_id" := n.media.id,
      "title_english" := n.media.title.english,
      "title_romaji" := n.media.title.romaji,
      "user_id" := (match n.user case None => Str("Unknown") case Some(u) => u.id),
      "score" := n.score,
      "rating" := n.rating,
      "ratingCount" := n.ratingAmount,
      "text_summary" := n.summary,
      "text_body" := n.body]
  }

  function EdgeRow(e: ReviewEdge): Row { ReviewRow(e.node) }

  /** The rows process_reviews appends for a `reviews` object. */
  function ReviewRows(reviews: Reviews): seq<Row> { Each(reviews.edges, EdgeRow) }

  function TagRow(tag: Tag, titleId: Value, title: TitleName): Row
  {
    map[
      "tag_id" := tag.id,
      "tag_name" := tag.name,
      "tag_category" := tag.category,
      "tag_rank" := tag.rank,
      "title_id" := titleId,
      "title_english" := title.english,
      "title_romaji" := title.romaji]
  }

  function TagRows(tags: seq<Tag>, titleId: Value, title: TitleName): seq<Row>
  {
    Each(tags, (tag: Tag) => TagRow(tag, titleId, title))
  }

  function StudioRow(node: Studio, titleId: Value, title: TitleName): Row
  {
    map[
      "title_id" := titleId,
      "title_english" := title.english,
      "title_romaji" := title.romaji,
      "studio_id" := node.id,
      "studio_name" := node.name]
  }

  function StudioRows(studios: Studios, titleId: Value, title: TitleName): seq<Row>
  {
    Each(studios.nodes, (node: Studio) => StudioRow(node, titleId, title))
  }

  function StaffRow(node: StaffMember, titleId: Value, title: TitleName): Row
  {
    map[
      "title_id" := titleId,
      "title_english" := title.english,
      "title_romaji" := title.romaji,
      "staff_id" := node.id,
      "staff_name" := node.name.full,
      "staff_lang" := node.languageV2]
  }

  function StaffRows(staff: Staff, titleId: Value, title: TitleName): seq<Row>
  {
    Each(staff.nodes, (node: StaffMember) => StaffRow(node, titleId, title))
  }

  /** A dict assignment `row[key] = value`, one per entry, in order. */
  datatype Field = Field(key: string, value: Value)

  function Put(row: Row, fields: seq<Field>): Row
  {
    if fields == [] then row
    else Put(row, fields[..|fields| - 1])[fields[|fields| - 1].key := fields[|fields| - 1].value]
  }

  /** One more assignment after a run. */
  lemma PutSnoc(row: Row, fields: seq<Field>, f: Field)
    ensures Put(row, fields + [f]) == Put(row, fields)[f.key := f.value]
  {
    assert (fields + [f])[..|fields|] == fields;
  }

  /** One more loop step: the fields of the first i + 1 entries are those of the first i and then one. */
  lemma PutEachStep<T>(row: Row, xs: seq<T>, i: nat, field: T -> Field)
    requires i < |xs|
    ensures Put(row, Each(xs[..i + 1], field)) == Put(row, Each(xs[..i], field))[field(xs[i]).key := field(xs[i]).value]
  {
    assert xs[..i + 1] == xs[..i] + [xs[i]];
    EachAppend(xs[..i], [xs[i]], field);
    PutSnoc(row, Each(xs[..i], field), field(xs[i]));
  }

  /** The value of the last field with the given key: the one a run of assignments leaves behind. */
  function LastValue(fields: seq<Field>, key: string): (v: Option<Value>)
    ensures v.Some? <==> exists j :: 0 <= j < |fields| && fields[j].key == key
    ensures v.Some? ==> exists j :: 0 <= j < |fields| && fields[j] == Field(key, v.value) &&
                                    forall j' :: j < j' < |fields| ==> fields[j'].key != key
  {
    if fields == [] then None
    else if fields[|fields| - 1].key == key then Some(fields[|fields| - 1].value)
    else LastValue(fields[..|fields| - 1], key)
  }

  function ScoreKey(score: int): string { "score_" + IntToString(score) }
  function StatusKey(status: string): string { "count_" + status }
  function RankingKey(rankType: string): string { "ranking_" + rankType }

  /** Distinct scores of a score distribution fill distinct score_<score> columns. */
  lemma ScoreKeyInjective(a: int, b: int)
    ensures ScoreKey(a) == ScoreKey(b) <==> a == b
  {
    if ScoreKey(a) == ScoreKey(b) {
      assert IntToString(a) == ScoreKey(a)[6..] && IntToString(b) == ScoreKey(b)[6..];
    }
    IntToStringInjective(a, b);
  }

  function ScoreField(s: ScoreAmount): Field { Field(ScoreKey(s.score), s.amount) }
  function StatusField(s: StatusAmount): Field { Field(StatusKey(s.status), s.amount) }
  function RankingField(r: Ranking): Field { Field(RankingKey(r.rankType), r.rank) }

  /** The fixed columns of a title row, assigned before the distribution loops. */
  function TitleBase(t: Media): Row
  {
    map[
      "title_id" := t.id,
      "title_english" := t.title.english,
      "title_romaji" := t.title.romaji,
      "type" := t.mediaType,
      "duration" := t.duration,
      "start_year" := t.startDate.year,
      "chapters" := t.chapters,
      "volume" := t.volumes,
      "publishing_status" := t.status,
      "country" := t.countryOfOrigin,
      "adult" := t.isAdult,
      "genres" := t.genres,
      "average_score" := t.averageScore,
      "mean_score" := t.meanScore,
      "popularity" := t.popularity,
      "favorites" := t.favourites]
  }

  /** The row a title has after the distribution and ranking loops, before its synopsis and cover image. */
  function TitleBeforeText(t: Media): Row
  {
    var withScores := Put(TitleBase(t), Each(t.stats.scoreDistribution, ScoreField));
    var withStatuses := Put(withScores, Each(t.stats.statusDistribution, StatusField));
    Put(withStatuses, Each(t.rankings, RankingField))
  }

  /** The row process_title appends for a media element. */
  function TitleRow(t: Media): Row
  {
    TitleBeforeText(t)["synopsis" := t.description]["cover_image_url" := t.coverImage]
  }

  function FavoriteRow(node: FavoriteNode, userId: Value): Row
  {
    map[
      "user_id" := userId,
      "title_id" := node.id,
      "title_english" := node.title.english,
      "title_romaji" := node.title.romaji,
      "type" := node.nodeType]
  }

  function FavoriteNodeRows(nodes: FavoriteNodes, userId: Value): seq<Row>
  {
    Each(nodes.nodes, (node: FavoriteNode) => FavoriteRow(node, userId))
  }

  /** The rows process_favorites appends: all anime favourites, then all manga favourites. */
  function FavoriteRows(favourites: Favourites, userId: Value): seq<Row>
  {
    FavoriteNodeRows(favourites.anime, userId) + FavoriteNodeRows(favourites.manga, userId)
  }

  function UserRow(u: User): Row
  {
    map["user_id" := u.id, "about" := u.about, "avatar" := u.avatar.medium]
  }

  function ListRow(entry: ListEntry): Row
  {
    map[
      "list_id" := entry.id,
      "user_id" := entry.userId,
      "title_id" := entry.mediaId,
      "status" := entry.status,
      "repeat" := entry.repeat]
  }

  function ListBlock(l: MediaList): seq<Row> { Each(l.entries, ListRow) }

  /** The rows process_lists appends: every entry of every list, in nested order. */
  function ListRows(lists: seq<MediaList>): seq<Row> { FlatMap(lists, ListBlock) }

  function CharacterRow(m: CharacterMedia, node: CharacterNode): Row
  {
    map[
      "title_id" := m.id,
      "title_english" := m.title.english,
      "title_romaji" := m.title.romaji,
      "character_id" := node.id,
      "character_name" := node.name.full,
      "character_image_url" := node.image.large]
  }

  function CharacterBlock(m: CharacterMedia): seq<Row>
  {
    Each(m.characters.nodes, (node: CharacterNode) => CharacterRow(m, node))
  }

  /** The rows process_characters appends: every character of every media element, in nested order. */
  function CharacterRows(media: seq<CharacterMedia>): seq<Row> { FlatMap(media, CharacterBlock) }

  // ---------------------------------------------------------------------
  // Routing: what each list a process_* call writes to receives.  A list
  // parameter is bound to one or more sinks (more than one when the caller
  // passes the same list twice); it receives the appends addressed to any
  // of its sinks, in program order.
  // ---------------------------------------------------------------------

  datatype Sink = TitlesSink | ReviewsSink | TagsSink | StudiosSink | StaffSink | UsersSink | FavoritesSink

  /** The sinks of process_title. */
  const TitleSinks: set<Sink> := {TitlesSink, ReviewsSink, TagsSink, StudiosSink, StaffSink}

  /**
   * The rows one media element sends to a list bound to `sinks`: its reviews, tags, studios and staff
   * are appended before its title row.
   */
  function MediaRouted(t: Media, sinks: set<Sink>): seq<Row>
  {
    (if ReviewsSink in sinks then ReviewRows(t.reviews) else [])
    + (if TagsSink in sinks then TagRows(t.tags, t.id, t.title) else [])
    + (if StudiosSink in sinks then StudioRows(t.studios, t.id, t.title) else [])
    + (if StaffSink in sinks then StaffRows(t.staff, t.id, t.title) else [])
    + (if TitlesSink in sinks then [TitleRow(t)] else [])
  }

  /** The rows process_title sends to a list bound to `sinks`, one media element after the other. */
  function TitleRouted(media: seq<Media>, sinks: set<Sink>): seq<Row>
  {
    if media == [] then [] else TitleRouted(media[..|media| - 1], sinks) + MediaRouted(media[|media| - 1], sinks)
  }

  /** The rows one user sends to a list bound to `sinks`: its favourites, then its user row. */
  function UserRouted(u: User, sinks: set<Sink>): seq<Row>
  {
    (if FavoritesSink in sinks then FavoriteRows(u.favourites, u.id) else [])
    + (if UsersSink in sinks then [UserRow(u)] else [])
  }

  /** The rows process_users sends to a list bound to `sinks`, one user after the other. */
  function UsersRouted(users: seq<User>, sinks: set<Sink>): seq<Row>
  {
    if users == [] then [] else UsersRouted(users[..|users| - 1], sinks) + UserRouted(users[|users| - 1], sinks)
  }

  // ---------------------------------------------------------------------
  // Lemmas
  // ---------------------------------------------------------------------

  /** An append made or skipped adds the block or nothing. */
  lemma GuardedAppend<X>(r0: seq<X>, r1: seq<X>, p: bool, a: seq<X>)
    requires r1 == if p then r0 + a else r0
    ensures r1 == r0 + (if p then a else [])
  {
    assert r0 + [] == r0;
  }

  /**
   * One media element processed: a list bound to `sinks` that gained, call after call, the child rows
   * and the title row its sinks call for holds what MediaRouted says, after its earlier contents.
   */
  lemma MediaListStep(r0: seq<Row>, r1: seq<Row>, r2: seq<Row>, r3: seq<Row>, r4: seq<Row>, r5: seq<Row>,
                      t: Media, sinks: set<Sink>)
    requires r1 == if ReviewsSink in sinks then r0 + ReviewRows(t.reviews) else r0
    requires r2 == if TagsSink in sinks then r1 + TagRows(t.tags, t.id, t.title) else r1
    requires r3 == if StudiosSink in sinks then r2 + StudioRows(t.studios, t.id, t.title) else r2
    requires r4 == if StaffSink in sinks then r3 + StaffRows(t.staff, t.id, t.title) else r3
    requires r5 == if TitlesSink in sinks then r4 + [TitleRow(t)] else r4
    ensures r5 == r0 + MediaRouted(t, sinks)
  {
    var a := if ReviewsSink in sinks then ReviewRows(t.reviews) else [];
    var b := if TagsSink in sinks then TagRows(t.tags, t.id, t.title) else [];
    var c := if StudiosSink in sinks then StudioRows(t.studios, t.id, t.title) else [];
    var d := if StaffSink in sinks then StaffRows(t.staff, t.id, t.title) else [];
    var e := if TitlesSink in sinks then [TitleRow(t)] else [];
    GuardedAppend(r0, r1, ReviewsSink in sinks, ReviewRows(t.reviews));
    GuardedAppend(r1, r2, TagsSink in sinks, TagRows(t.tags, t.id, t.title));
    GuardedAppend(r2, r3, StudiosSink in sinks, StudioRows(t.studios, t.id, t.title));
    GuardedAppend(r3, r4, StaffSink in sinks, StaffRows(t.staff, t.id, t.title));
    GuardedAppend(r4, r5, TitlesSink in sinks, [TitleRow(t)]);
    AppendsInTurn(r0, r1, r2, r3, r4, r5, a, b, c, d, e);
  }

  /** Five appends in turn add their concatenation. */
  lemma AppendsInTurn<X>(r0: seq<X>, r1: seq<X>, r2: seq<X>, r3: seq<X>, r4: seq<X>, r5: seq<X>,
                         a: seq<X>, b: seq<X>, c: seq<X>, d: seq<X>, e: seq<X>)
    requires r1 == r0 + a && r2 == r1 + b && r3 == r2 + c && r4 == r3 + d && r5 == r4 + e
    ensures r5 == r0 + (a + b + c + d + e)
  {
  }

  /** One user processed: the counterpart of MediaListStep for process_users. */
  lemma UserListStep(r0: seq<Row>, r1: seq<Row>, r2: seq<Row>, u: User, sinks: set<Sink>)
    requires r1 == if FavoritesSink in sinks then r0 + FavoriteRows(u.favourites, u.id) else r0
    requires r2 == if UsersSink in sinks then r1 + [UserRow(u)] else r1
    ensures r2 == r0 + UserRouted(u, sinks)
  {
    var a := if FavoritesSink in sinks then FavoriteRows(u.favourites, u.id) else [];
    var e := if UsersSink in sinks then [UserRow(u)] else [];
    assert r1 == r0 + a && r2 == r1 + e by {
      assert r0 + [] == r0 && r1 + [] == r1;
    }
    ConcatAssoc(r0, a, e);
  }

  /** A list holding the rows of the first i media elements that gains those of element i holds i + 1. */
  lemma TitleRoutedStep(before: seq<Row>, r0: seq<Row>, r1: seq<Row>, media: seq<Media>, i: nat, sinks: set<Sink>)
    requires i < |media|
    requires r0 == before + TitleRouted(media[..i], sinks)
    requires r1 == r0 + MediaRouted(media[i], sinks)
    ensures r1 == before + TitleRouted(media[..i + 1], sinks)
  {
    assert media[..i + 1][..i] == media[..i];
    ConcatAssoc(before, TitleRouted(media[..i], sinks), MediaRouted(media[i], sinks));
  }

  lemma UsersRoutedStep(before: seq<Row>, r0: seq<Row>, r1: seq<Row>, users: seq<User>, i: nat, sinks: set<Sink>)
    requires i < |users|
    requires r0 == before + UsersRouted(users[..i], sinks)
    requires r1 == r0 + UserRouted(users[i], sinks)
    ensures r1 == before + UsersRouted(users[..i + 1], sinks)
  {
    assert users[..i + 1][..i] == users[..i];
    ConcatAssoc(before, UsersRouted(users[..i], sinks), UserRouted(users[i], sinks));
  }

  /** process_title over a concatenation is process_title over each part in turn. */
  lemma {:induction false} TitleRoutedAppend(a: seq<Media>, b: seq<Media>, sinks: set<Sink>)
    ensures TitleRouted(a + b, sinks) == TitleRouted(a, sinks) + TitleRouted(b, sinks)
  {
    if b == [] {
      assert a + b == a;
    } else {
      var n := |b| - 1;
      assert (a + b)[..|a + b| - 1] == a + b[..n];
      TitleRoutedAppend(a, b[..n], sinks);
      ConcatAssoc(TitleRouted(a, sinks), TitleRouted(b[..n], sinks), MediaRouted(b[n], sinks));
    }
  }

  /** A titles list bound to nothing else receives exactly one title row per media element, in order. */
  lemma {:induction false} TitleRoutedTitles(media: seq<Media>)
    ensures TitleRouted(media, {TitlesSink}) == Each(media, TitleRow)
  {
    if media != [] {
      var n := |media| - 1;
      TitleRoutedTitles(media[..n]);
    }
  }

  function MediaReviewRows(t: Media): seq<Row> { ReviewRows(t.reviews) }

  lemma MediaRoutedReviewsOnly(t: Media)
    ensures MediaRouted(t, {ReviewsSink}) == MediaReviewRows(t)
  {
    var r := ReviewRows(t.reviews);
    assert r + [] + [] + [] + [] == r;
  }

  /** A reviews list bound to nothing else receives the reviews of each media element in turn. */
  lemma {:induction false} TitleRoutedReviews(media: seq<Media>)
    ensures TitleRouted(media, {ReviewsSink}) == FlatMap(media, MediaReviewRows)
  {
    if media != [] {
      var n := |media| - 1;
      TitleRoutedReviews(media[..n]);
      MediaRoutedReviewsOnly(media[n]);
    }
  }

  /**
   * However the lists are aliased, the last row a list bound to the titles sink receives for a media
   * element is that element's title row, and nothing before it in that element's block is a title row
   * unless the list is bound to another sink too.
   */
  lemma MediaRoutedTitleLast(t: Media, sinks: set<Sink>)
    requires TitlesSink in sinks
    ensures |MediaRouted(t, sinks)| > 0
    ensures MediaRouted(t, sinks)[|MediaRouted(t, sinks)| - 1] == TitleRow(t)
    ensures sinks == {TitlesSink} ==> MediaRouted(t, sinks) == [TitleRow(t)]
  {
  }

  /** Bound to every sink (all five parameters the same list), a media element's rows come in call order. */
  lemma MediaRoutedAll(t: Media)
    ensures MediaRouted(t, TitleSinks) ==
      ReviewRows(t.reviews) + TagRows(t.tags, t.id, t.title) + StudioRows(t.studios, t.id, t.title)
      + StaffRows(t.staff, t.id, t.title) + [TitleRow(t)]
  {
  }

  /** A users list bound to nothing else receives exactly one row per user, in order. */
  lemma {:induction false} UsersRoutedUsers(users: seq<User>)
    ensures UsersRouted(users, {UsersSink}) == Each(users, UserRow)
  {
    if users != [] {
      var n := |users| - 1;
      UsersRoutedUsers(users[..n]);
    }
  }

  function UserFavoriteRows(u: User): seq<Row> { FavoriteRows(u.favourites, u.id) }

  /** A favourites list bound to nothing else receives the favourites of each user in turn. */
  lemma {:induction false} UsersRoutedFavorites(users: seq<User>)
    ensures UsersRouted(users, {FavoritesSink}) == FlatMap(users, UserFavoriteRows)
  {
    if users != [] {
      var n := |users| - 1;
      UsersRoutedFavorites(users[..n]);
    }
  }

  /** process_reviews: one row per edge, in edge order; user_id is "Unknown" exactly when the node has no user. */
  lemma ReviewRowsShape(reviews: Reviews, i: nat)
    requires i < |reviews.edges|
    ensures |ReviewRows(reviews)| == |reviews.edges|
    ensures var row := ReviewRows(reviews)[i]; var n := reviews.edges[i].node;
      && row["review_id"] == n.id
      && row["title_id"] == n.media.id
      && row["user_id"] == (if n.user.None? then Str("Unknown") else n.user.value.id)
  {
  }

  /**
   * process_tags, process_studios, process_staff: one row per element, each carrying the title id and
   * names it was given and its element's id.
   */
  lemma ChildRowsShape(tags: seq<Tag>, studios: Studios, staff: Staff, titleId: Value, title: TitleName)
    ensures |TagRows(tags, titleId, title)| == |tags|
    ensures |StudioRows(studios, titleId, title)| == |studios.nodes|
    ensures |StaffRows(staff, titleId, title)| == |staff.nodes|
    ensures forall i :: 0 <= i < |tags| ==>
      var row := TagRows(tags, titleId, title)[i];
      row["title_id"] == titleId && row["title_romaji"] == title.romaji && row["tag_id"] == tags[i].id
    ensures forall i :: 0 <= i < |studios.nodes| ==>
      var row := StudioRows(studios, titleId, title)[i];
      row["title_id"] == titleId && row["title_romaji"] == title.romaji && row["studio_id"] == studios.nodes[i].id
    ensures forall i :: 0 <= i < |staff.nodes| ==>
      var row := StaffRows(staff, titleId, title)[i];
      row["title_id"] == titleId && row["title_romaji"] == title.romaji
        && row["staff_id"] == staff.nodes[i].id && row["staff_name"] == staff.nodes[i].name.full
  {
  }

  /** A key is set by a run of assignments exactly when it was set before or by some field; the last field wins. */
  lemma {:induction false} PutLookup(row: Row, fields: seq<Field>, key: string)
    ensures key in Put(row, fields) <==> key in row || LastValue(fields, key).Some?
    ensures key in Put(row, fields) ==>
      Put(row, fields)[key] == if LastValue(fields, key).Some? then LastValue(fields, key).value else row[key]
  {
    if fields != [] {
      PutLookup(row, fields[..|fields| - 1], key);
    }
  }

  lemma NoFieldWithKey(fields: seq<Field>, key: string)
    requires forall j :: 0 <= j < |fields| ==> fields[j].key != key
    ensures LastValue(fields, key) == None
  {
  }

  /** Every field of a run assigns a key that starts with character c. */
  predicate KeysStartWith(fields: seq<Field>, c: char)
  {
    forall j :: 0 <= j < |fields| ==> |fields[j].key| > 0 && fields[j].key[0] == c
  }

  lemma GeneratedKeysStart(t: Media)
    ensures KeysStartWith(Each(t.stats.scoreDistribution, ScoreField), 's')
    ensures KeysStartWith(Each(t.stats.statusDistribution, StatusField), 'c')
    ensures KeysStartWith(Each(t.rankings, RankingField), 'r')
  {
  }

  /** A key a run assigns starts with the run's common first character; a key that does not is untouched by it. */
  lemma KeyOfRun(fields: seq<Field>, c: char, key: string)
    requires KeysStartWith(fields, c)
    ensures LastValue(fields, key).Some? ==> |key| > 0 && key[0] == c
    ensures |key| > 0 && key[0] != c ==> LastValue(fields, key) == None
  {
  }

  /**
   * The column-name facts behind a title row, for any starting row: three runs of assignments whose keys
   * start with 's', 'c' and 'r', then "synopsis" and "cover_image_url".
   */
  lemma FinishedRunsLookup(base: Row, a: seq<Field>, b: seq<Field>, c: seq<Field>, x: Value, y: Value, key: string)
    requires KeysStartWith(a, 's') && KeysStartWith(b, 'c') && KeysStartWith(c, 'r')
    requires forall j :: 0 <= j < |a| ==> |a[j].key| > 1 && a[j].key[1] == 'c'
    requires forall j :: 0 <= j < |b| ==> |b[j].key| > 2 && b[j].key[2] == 'u'
    ensures var row := Put(Put(Put(base, a), b), c)["synopsis" := x]["cover_image_url" := y];
      && (key == "title_id" && key in base ==> key in row && row[key] == base[key])
      && (LastValue(a, key).Some? ==> key in row && row[key] == LastValue(a, key).value)
      && (LastValue(b, key).Some? ==> key in row && row[key] == LastValue(b, key).value)
      && (LastValue(c, key).Some? ==> key in row && row[key] == LastValue(c, key).value)
  {
    var r1 := Put(base, a);
    var r2 := Put(r1, b);
    KeyOfRun(a, 's', key);
    KeyOfRun(b, 'c', key);
    KeyOfRun(c, 'r', key);
    PutLookup(base, a, key);
    PutLookup(r1, b, key);
    PutLookup(r2, c, key);
  }

  lemma GeneratedKeysInner(t: Media)
    ensures forall j :: 0 <= j < |t.stats.scoreDistribution| ==>
      var k := ScoreField(t.stats.scoreDistribution[j]).key; |k| > 1 && k[1] == 'c'
    ensures forall j :: 0 <= j < |t.stats.statusDistribution| ==>
      var k := StatusField(t.stats.statusDistribution[j]).key; |k| > 2 && k[2] == 'u'
  {
  }

  /**
   * The column families of a title row: title_id is the media id, and every score_<s>, count_<status> and
   * ranking_<type> column holds the amount or rank of the LAST entry with that label (a later entry with the
   * same label overwrites an earlier one; the families never clash with each other or with fixed columns).
   */
  lemma TitleRowColumns(t: Media, key: string)
    ensures "title_id" in TitleRow(t) && TitleRow(t)["title_id"] == t.id
    ensures LastValue(Each(t.stats.scoreDistribution, ScoreField), key).Some? ==>
      key in TitleRow(t) && TitleRow(t)[key] == LastValue(Each(t.stats.scoreDistribution, ScoreField), key).value
    ensures LastValue(Each(t.stats.statusDistribution, StatusField), key).Some? ==>
      key in TitleRow(t) && TitleRow(t)[key] == LastValue(Each(t.stats.statusDistribution, StatusField), key).value
    ensures LastValue(Each(t.rankings, RankingField), key).Some? ==>
      key in TitleRow(t) && TitleRow(t)[key] == LastValue(Each(t.rankings, RankingField), key).value
  {
    var base := TitleBase(t);
    assert "title_id" in base && base["title_id"] == t.id;
    var a := Each(t.stats.scoreDistribution, ScoreField);
    var b := Each(t.stats.statusDistribution, StatusField);
    var c := Each(t.rankings, RankingField);
    GeneratedKeysStart(t);
    GeneratedKeysInner(t);
    FinishedRunsLookup(base, a, b, c, t.description, t.coverImage, key);
    FinishedRunsLookup(base, a, b, c, t.description, t.coverImage, "title_id");
  }

  /**
   * The score_<s> column of a title row holds the amount of the last distribution entry with score s.
   * Distinct scores give distinct column names, so an entry is overwritten only by a later entry with
   * the same score.
   */
  lemma TitleRowScore(t: Media, score: int)
    requires exists j :: 0 <= j < |t.stats.scoreDistribution| && t.stats.scoreDistribution[j].score == score
    ensures var d := t.stats.scoreDistribution;
      && ScoreKey(score) in TitleRow(t)
      && exists j :: 0 <= j < |d| && d[j].score == score && TitleRow(t)[ScoreKey(score)] == d[j].amount
           && forall j' :: j < j' < |d| ==> d[j'].score != score
  {
    var d := t.stats.scoreDistribution;
    var fields := Each(d, ScoreField);
    var key := ScoreKey(score);
    var j0 :| 0 <= j0 < |d| && d[j0].score == score;
    assert fields[j0].key == key;
    TitleRowColumns(t, key);
    var v := LastValue(fields, key).value;
    var j :| 0 <= j < |fields| && fields[j] == Field(key, v) && forall j' :: j < j' < |fields| ==> fields[j'].key != key;
    ScoreKeyInjective(d[j].score, score);
    forall j' | j < j' < |d| ensures d[j'].score != score {
      assert fields[j'].key == ScoreKey(d[j'].score);
    }
  }

  /** process_favorites adds len(anime) + len(manga) rows, anime first, each tagged with the user id. */
  lemma FavoriteRowsShape(favourites: Favourites, userId: Value)
    ensures |FavoriteRows(favourites, userId)| == |favourites.anime.nodes| + |favourites.manga.nodes|
    ensures forall i :: 0 <= i < |favourites.anime.nodes| ==>
      FavoriteRows(favourites, userId)[i] == FavoriteRow(favourites.anime.nodes[i], userId)
    ensures forall i :: 0 <= i < |favourites.manga.nodes| ==>
      FavoriteRows(favourites, userId)[|favourites.anime.nodes| + i] == FavoriteRow(favourites.manga.nodes[i], userId)
    ensures forall row :: row in FavoriteRows(favourites, userId) ==> row["user_id"] == userId
  {
    var a, b := FavoriteNodeRows(favourites.anime, userId), FavoriteNodeRows(favourites.manga, userId);
    FavoriteNodeRowsUser(favourites.anime, userId);
    FavoriteNodeRowsUser(favourites.manga, userId);
    forall row | row in a + b ensures row in a || row in b {
    }
  }

  /** Every row of one favourites list carries the user id. */
  lemma FavoriteNodeRowsUser(nodes: FavoriteNodes, userId: Value)
    ensures forall row :: row in FavoriteNodeRows(nodes, userId) ==> "user_id" in row && row["user_id"] == userId
  {
    forall row | row in FavoriteNodeRows(nodes, userId) ensures "user_id" in row && row["user_id"] == userId {
      var k :| 0 <= k < |nodes.nodes| && FavoriteNodeRows(nodes, userId)[k] == row;
      assert row == FavoriteRow(nodes.nodes[k], userId);
    }
  }

  /**
   * process_lists: the block of list i, one row per entry carrying the entry's ids, sits between the
   * blocks of the lists before and after it.
   */
  lemma ListRowsShape(lists: seq<MediaList>, i: nat)
    requires i < |lists|
    ensures ListRows(lists) == ListRows(lists[..i]) + Each(lists[i].entries, ListRow) + ListRows(lists[i + 1..])
    ensures |ListRows(lists)| == TotalLength(lists, ListBlock)
    ensures forall j :: 0 <= j < |lists[i].entries| ==>
      var row, entry := ListBlock(lists[i])[j], lists[i].entries[j];
      row["list_id"] == entry.id && row["user_id"] == entry.userId && row["title_id"] == entry.mediaId
  {
    FlatMapSplit(lists, ListBlock, i);
    FlatMapLength(lists, ListBlock);
  }

  /** process_characters: media i contributes one row per character node, each carrying media i's id as title_id. */
  lemma CharacterRowsShape(media: seq<CharacterMedia>, i: nat)
    requires i < |media|
    ensures CharacterRows(media) == CharacterRows(media[..i]) + CharacterBlock(media[i]) + CharacterRows(media[i + 1..])
    ensures |CharacterBlock(media[i])| == |media[i].characters.nodes|
    ensures forall j :: 0 <= j < |media[i].characters.nodes| ==>
      CharacterBlock(media[i])[j]["title_id"] == media[i].id &&
      CharacterBlock(media[i])[j]["character_id"] == media[i].characters.nodes[j].id
  {
    FlatMapSplit(media, CharacterBlock, i);
  }
}

/**
 * The process_* flatteners of anilist_api_caller.py.  Each one walks a nested
 * API response and appends one flat row per node to lists its caller owns,
 * in place.  A caller-owned Python list is a RowList object.  The contracts
 * say that every list gains exactly the rows the row builders of
 * AniListRows produce, in order, after its earlier contents.
 * process_title and process_users write to several lists.  The caller may
 * pass the same list for two parameters, so each list is bound to the set
 * of parameters (sinks) it was passed as, and it receives, in program order,
 * every append addressed to one of them.
 */
module AniListApiCaller {
  import opened Seqs
  import opened AniListRows

  /** A Python list of row dicts, owned by the caller and appended to in place. */
  class RowList {
    var rows: seq<Row>

    constructor ()
      ensures rows == []
    {
      rows := [];
    }

    /** list.append */
    method Append(row: Row)
      modifies this
      ensures rows == old(rows) + [row]
    {
      rows := rows + [row];
    }
  }

  method ProcessReviews(reviews: Reviews, reviewArray: RowList)
    modifies reviewArray
    ensures reviewArray.rows == old(reviewArray.rows) + ReviewRows(reviews)
  {
    var nodes := reviews.edges;
    for i := 0 to |nodes|
      invariant reviewArray.rows == old(reviewArray.rows) + Each(nodes[..i], EdgeRow)
    {
      assert nodes[..i + 1][..i] == nodes[..i];
      reviewArray.Append(ReviewRow(nodes[i].node));
    }
    assert nodes[..|nodes|] == nodes;
  }

  method ProcessTags(tags: seq<Tag>, titleId: Value, title: TitleName, tagsArray: RowList)
    modifies tagsArray
    ensures tagsArray.rows == old(tagsArray.rows) + TagRows(tags, titleId, title)
  {
    for i := 0 to |tags|
      invariant tagsArray.rows == old(tagsArray.rows) + TagRows(tags[..i], titleId, title)
    {
      assert tags[..i + 1][..i] == tags[..i];
      tagsArray.Append(TagRow(tags[i], titleId, title));
    }
    assert tags[..|tags|] == tags;
  }

  method ProcessStudios(studios: Studios, titleId: Value, title: TitleName, studiosArray: RowList)
    modifies studiosArray
    ensures studiosArray.rows == old(studiosArray.rows) + StudioRows(studios, titleId, title)
  {
    var nodes := studios.nodes;
    for i := 0 to |nodes|
      invariant studiosArray.rows == old(studiosArray.rows) + StudioRows(Studios(nodes[..i]), titleId, title)
    {
      assert nodes[..i + 1][..i] == nodes[..i];
      studiosArray.Append(StudioRow(nodes[i], titleId, title));
    }
    assert nodes[..|nodes|] == nodes;
  }

  method ProcessStaff(staff: Staff, titleId: Value, title: TitleName, staffArray: RowList)
    modifies staffArray
    ensures staffArray.rows == old(staffArray.rows) + StaffRows(staff, titleId, title)
  {
    var nodes := staff.nodes;
    for i := 0 to |nodes|
      invariant staffArray.rows == old(staffArray.rows) + StaffRows(Staff(nodes[..i]), titleId, title)
    {
      assert nodes[..i + 1][..i] == nodes[..i];
      staffArray.Append(StaffRow(nodes[i], titleId, title));
    }
    assert nodes[..|nodes|] == nodes;
  }

  /** The sinks of process_title that a given list is bound to (more than one when the caller aliases lists). */
  function TitleSinksOf(l: RowList, titles: RowList, reviews: RowList, tags: RowList,
                        studios: RowList, staff: RowList): (sinks: set<Sink>)
    ensures sinks <= TitleSinks
    ensures TitlesSink in sinks <==> l == titles
    ensures ReviewsSink in sinks <==> l == reviews
    ensures TagsSink in sinks <==> l == tags
    ensures StudiosSink in sinks <==> l == studios
    ensures StaffSink in sinks <==> l == staff
  {
    (if l == titles then {TitlesSink} else {})
    + (if l == reviews then {ReviewsSink} else {})
    + (if l == tags then {TagsSink} else {})
    + (if l == studios then {StudiosSink} else {})
    + (if l == staff then {StaffSink} else {})
  }

  /** The loop of process_title that sets score_<score> to the amount of each score-distribution entry. */
  method PutScores(row: Row, scores: seq<ScoreAmount>) returns (dictT: Row)
    ensures dictT == Put(row, Each(scores, ScoreField))
  {
    dictT := row;
    for i := 0 to |scores|
      invariant dictT == Put(row, Each(scores[..i], ScoreField))
    {
      PutEachStep(row, scores, i, ScoreField);
      dictT := dictT[ScoreKey(scores[i].score) := scores[i].amount];
    }
    assert scores[..|scores|] == scores;
  }

  /** The loop of process_title that sets count_<status> to the amount of each status-distribution entry. */
  method PutStatuses(row: Row, statuses: seq<StatusAmount>) returns (dictT: Row)
    ensures dictT == Put(row, Each(statuses, StatusField))
  {
    dictT := row;
    for i := 0 to |statuses|
      invariant dictT == Put(row, Each(statuses[..i], StatusField))
    {
      PutEachStep(row, statuses, i, StatusField);
      dictT := dictT[StatusKey(statuses[i].status) := statuses[i].amount];
    }
    assert statuses[..|statuses|] == statuses;
  }

  /** The loop of process_title that sets ranking_<type> to the rank of each ranking entry. */
  method PutRankings(row: Row, rankings: seq<Ranking>) returns (dictT: Row)
    ensures dictT == Put(row, Each(rankings, RankingField))
  {
    dictT := row;
    for i := 0 to |rankings|
      invariant dictT == Put(row, Each(rankings[..i], RankingField))
    {
      PutEachStep(row, rankings, i, RankingField);
      dictT := dictT[RankingKey(rankings[i].rankType) := rankings[i].rank];
    }
    assert rankings[..|rankings|] == rankings;
  }

  /**
   * The dict process_title builds for one media element: the fixed columns, the three loops, then
   * synopsis and cover image.
   */
  method TitleDict(t: Media) returns (dictT: Row)
    ensures dictT == TitleRow(t)
  {
    dictT := TitleBase(t);
    dictT := PutScores(dictT, t.stats.scoreDistribution);
    dictT := PutStatuses(dictT, t.stats.statusDistribution);
    dictT := PutRankings(dictT, t.rankings);
    dictT := dictT["synopsis" := t.description];
    dictT := dictT["cover_image_url" := t.coverImage];
  }

  /**
   * One pass of the loop of process_title, for media element `t`: its reviews, tags, studios and staff
   * go to their lists, then its title row to the titles list.  Every list gains what MediaRouted sends it.
   */
  method ProcessMedia(t: Media, titlesArray: RowList, reviewArray: RowList, tagsArray: RowList,
                      studiosArray: RowList, staffArray: RowList)
    modifies titlesArray, reviewArray, tagsArray, studiosArray, staffArray
    ensures titlesArray.rows == old(titlesArray.rows) + MediaRouted(t, TitleSinksOf(titlesArray, titlesArray, reviewArray, tagsArray, studiosArray, staffArray))
    ensures reviewArray.rows == old(reviewArray.rows) + MediaRouted(t, TitleSinksOf(reviewArray, titlesArray, reviewArray, tagsArray, studiosArray, staffArray))
    ensures tagsArray.rows == old(tagsArray.rows) + MediaRouted(t, TitleSinksOf(tagsArray, titlesArray, reviewArray, tagsArray, studiosArray, staffArray))
    ensures studiosArray.rows == old(studiosArray.rows) + MediaRouted(t, TitleSinksOf(studiosArray, titlesArray, reviewArray, tagsArray, studiosArray, staffArray))
    ensures staffArray.rows == old(staffArray.rows) + MediaRouted(t, TitleSinksOf(staffArray, titlesArray, reviewArray, tagsArray, studiosArray, staffArray))
  {
    var dictT := TitleDict(t);
    ghost var titles0, reviews0, tags0, studios0, staff0 := titlesArray.rows, reviewArray.rows, tagsArray.rows, studiosArray.rows, staffArray.rows;
    ProcessReviews(t.reviews, reviewArray);
    ghost var titles1, reviews1, tags1, studios1, staff1 := titlesArray.rows, reviewArray.rows, tagsArray.rows, studiosArray.rows, staffArray.rows;
    ProcessTags(t.tags, t.id, t.title, tagsArray);
    ghost var titles2, reviews2, tags2, studios2, staff2 := titlesArray.rows, reviewArray.rows, tagsArray.rows, studiosArray.rows, staffArray.rows;
    ProcessStudios(t.studios, t.id, t.title, studiosArray);
    ghost var titles3, reviews3, tags3, studios3, staff3 := titlesArray.rows, reviewArray.rows, tagsArray.rows, studiosArray.rows, staffArray.rows;
    ProcessStaff(t.staff, t.id, t.title, staffArray);
    ghost var titles4, reviews4, tags4, studios4, staff4 := titlesArray.rows, reviewArray.rows, tagsArray.rows, studiosArray.rows, staffArray.rows;
    titlesArray.Append(dictT);
    MediaListStep(titles0, titles1, titles2, titles3, titles4, titlesArray.rows, t, TitleSinksOf(titlesArray, titlesArray, reviewArray, tagsArray, studiosArray, staffArray));
    MediaListStep(reviews0, reviews1, reviews2, reviews3, reviews4, reviewArray.rows, t, TitleSinksOf(reviewArray, titlesArray, reviewArray, tagsArray, studiosArray, staffArray));
    MediaListStep(tags0, tags1, tags2, tags3, tags4, tagsArray.rows, t, TitleSinksOf(tagsArray, titlesArray, reviewArray, tagsArray, studiosArray, staffArray));
    MediaListStep(studios0, studios1, studios2, studios3, studios4, studiosArray.rows, t, TitleSinksOf(studiosArray, titlesArray, reviewArray, tagsArray, studiosArray, staffArray));
    MediaListStep(staff0, staff1, staff2, staff3, staff4, staffArray.rows, t, TitleSinksOf(staffArray, titlesArray, reviewArray, tagsArray, studiosArray, staffArray));
  }

  /**
   * Every list passed to process_title gains, after its earlier contents, the rows routed to it: with
   * distinct lists, one title row per media element (TitleRoutedTitles) and the reviews, tags, studios
   * and staff of each element in turn (TitleRoutedReviews); each element's child rows come before its
   * title row (MediaRoutedTitleLast, MediaRoutedAll).
   */
  method ProcessTitle(media: seq<Media>, titlesArray: RowList, reviewArray: RowList, tagsArray: RowList,
                      studiosArray: RowList, staffArray: RowList)
    modifies titlesArray, reviewArray, tagsArray, studiosArray, staffArray
    ensures titlesArray.rows == old(titlesArray.rows) + TitleRouted(media, TitleSinksOf(titlesArray, titlesArray, reviewArray, tagsArray, studiosArray, staffArray))
    ensures reviewArray.rows == old(reviewArray.rows) + TitleRouted(media, TitleSinksOf(reviewArray, titlesArray, reviewArray, tagsArray, studiosArray, staffArray))
    ensures tagsArray.rows == old(tagsArray.rows) + TitleRouted(media, TitleSinksOf(tagsArray, titlesArray, reviewArray, tagsArray, studiosArray, staffArray))
    ensures studiosArray.rows == old(studiosArray.rows) + TitleRouted(media, TitleSinksOf(studiosArray, titlesArray, reviewArray, tagsArray, studiosArray, staffArray))
    ensures staffArray.rows == old(staffArray.rows) + TitleRouted(media, TitleSinksOf(staffArray, titlesArray, reviewArray, tagsArray, studiosArray, staffArray))
  {
    for i := 0 to |media|
      invariant titlesArray.rows == old(titlesArray.rows) + TitleRouted(media[..i], TitleSinksOf(titlesArray, titlesArray, reviewArray, tagsArray, studiosArray, staffArray))
      invariant reviewArray.rows == old(reviewArray.rows) + TitleRouted(media[..i], TitleSinksOf(reviewArray, titlesArray, reviewArray, tagsArray, studiosArray, staffArray))
      invariant tagsArray.rows == old(tagsArray.rows) + TitleRouted(media[..i], TitleSinksOf(tagsArray, titlesArray, reviewArray, tagsArray, studiosArray, staffArray))
      invariant studiosArray.rows == old(studiosArray.rows) + TitleRouted(media[..i], TitleSinksOf(studiosArray, titlesArray, reviewArray, tagsArray, studiosArray, staffArray))
      invariant staffArray.rows == old(staffArray.rows) + TitleRouted(media[..i], TitleSinksOf(staffArray, titlesArray, reviewArray, tagsArray, studiosArray, staffArray))
    {
      ghost var titles0, reviews0, tags0, studios0, staff0 := titlesArray.rows, reviewArray.rows, tagsArray.rows, studiosArray.rows, staffArray.rows;
      ProcessMedia(media[i], titlesArray, reviewArray, tagsArray, studiosArray, staffArray);
      TitleRoutedStep(old(titlesArray.rows), titles0, titlesArray.rows, media, i, TitleSinksOf(titlesArray, titlesArray, reviewArray, tagsArray, studiosArray, staffArray));
      TitleRoutedStep(old(reviewArray.rows), reviews0, reviewArray.rows, media, i, TitleSinksOf(reviewArray, titlesArray, reviewArray, tagsArray, studiosArray, staffArray));
      TitleRoutedStep(old(tagsArray.rows), tags0, tagsArray.rows, media, i, TitleSinksOf(tagsArray, titlesArray, reviewArray, tagsArray, studiosArray, staffArray));
      TitleRoutedStep(old(studiosArray.rows), studios0, studiosArray.rows, media, i, TitleSinksOf(studiosArray, titlesArray, reviewArray, tagsArray, studiosArray, staffArray));
      TitleRoutedStep(old(staffArray.rows), staff0, staffArray.rows, media, i, TitleSinksOf(staffArray, titlesArray, reviewArray, tagsArray, studiosArray, staffArray));
    }
    assert media[..|media|] == media;
  }

  /** One of the two loops of process_favorites: a row per favourite node, in order. */
  method AppendFavorites(nodes: FavoriteNodes, userId: Value, favoritesArray: RowList)
    modifies favoritesArray
    ensures favoritesArray.rows == old(favoritesArray.rows) + FavoriteNodeRows(nodes, userId)
  {
    var ns := nodes.nodes;
    for i := 0 to |ns|
      invariant favoritesArray.rows == old(favoritesArray.rows) + FavoriteNodeRows(FavoriteNodes(ns[..i]), userId)
    {
      assert ns[..i + 1][..i] == ns[..i];
      favoritesArray.Append(FavoriteRow(ns[i], userId));
    }
    assert ns[..|ns|] == ns;
  }

  method ProcessFavorites(favorites: Favourites, userId: Value, favoritesArray: RowList)
    modifies favoritesArray
    ensures favoritesArray.rows == old(favoritesArray.rows) + FavoriteRows(favorites, userId)
  {
    AppendFavorites(favorites.anime, userId, favoritesArray);
    AppendFavorites(favorites.manga, userId, favoritesArray);
    ConcatAssoc(old(favoritesArray.rows), FavoriteNodeRows(favorites.anime, userId), FavoriteNodeRows(favorites.manga, userId));
  }

  /** The sinks of process_users that a given list is bound to. */
  function UserSinksOf(l: RowList, users: RowList, favorites: RowList): (sinks: set<Sink>)
    ensures UsersSink in sinks <==> l == users
    ensures FavoritesSink in sinks <==> l == favorites
    ensures sinks <= {UsersSink, FavoritesSink}
  {
    (if l == users then {UsersSink} else {}) + (if l == favorites then {FavoritesSink} else {})
  }

  /**
   * Both lists passed to process_users gain the rows routed to them: with distinct lists, one user row
   * per user (UsersRoutedUsers) and the favourites of each user in turn (UsersRoutedFavorites), each
   * user's favourites before its user row.
   */
  method ProcessUsers(user: seq<User>, usersArray: RowList, favoritesArray: RowList)
    modifies usersArray, favoritesArray
    ensures usersArray.rows == old(usersArray.rows) + UsersRouted(user, UserSinksOf(usersArray, usersArray, favoritesArray))
    ensures favoritesArray.rows == old(favoritesArray.rows) + UsersRouted(user, UserSinksOf(favoritesArray, usersArray, favoritesArray))
  {
    for i := 0 to |user|
      invariant usersArray.rows == old(usersArray.rows) + UsersRouted(user[..i], UserSinksOf(usersArray, usersArray, favoritesArray))
      invariant favoritesArray.rows == old(favoritesArray.rows) + UsersRouted(user[..i], UserSinksOf(favoritesArray, usersArray, favoritesArray))
    {
      var u := user[i];
      var dictU := UserRow(u);
      ghost var users0, favorites0 := usersArray.rows, favoritesArray.rows;
      ProcessFavorites(u.favourites, u.id, favoritesArray);
      ghost var users1, favorites1 := usersArray.rows, favoritesArray.rows;
      usersArray.Append(dictU);
      UserListStep(users0, users1, usersArray.rows, u, UserSinksOf(usersArray, usersArray, favoritesArray));
      UsersRoutedStep(old(usersArray.rows), users0, usersArray.rows, user, i, UserSinksOf(usersArray, usersArray, favoritesArray));
      UserListStep(favorites0, favorites1, favoritesArray.rows, u, UserSinksOf(favoritesArray, usersArray, favoritesArray));
      UsersRoutedStep(old(favoritesArray.rows), favorites0, favoritesArray.rows, user, i, UserSinksOf(favoritesArray, usersArray, favoritesArray));
    }
    assert user[..|user|] == user;
  }

  method ProcessLists(mediaList: seq<MediaList>, listArray: RowList)
    modifies listArray
    ensures listArray.rows == old(listArray.rows) + ListRows(mediaList)
  {
    for i := 0 to |mediaList|
      invariant listArray.rows == old(listArray.rows) + ListRows(mediaList[..i])
    {
      var entries := mediaList[i].entries;
      ghost var start := listArray.rows;
      for j := 0 to |entries|
        invariant listArray.rows == start + Each(entries[..j], ListRow)
      {
        assert entries[..j + 1][..j] == entries[..j];
        listArray.Append(ListRow(entries[j]));
      }
      assert entries[..|entries|] == entries;
      FlatMapStep(old(listArray.rows), start, listArray.rows, mediaList, i, ListBlock);
    }
    assert mediaList[..|mediaList|] == mediaList;
  }

  method ProcessCharacters(media: seq<CharacterMedia>, charaArray: RowList)
    modifies charaArray
    ensures charaArray.rows == old(charaArray.rows) + CharacterRows(media)
  {
    for i := 0 to |media|
      invariant charaArray.rows == old(charaArray.rows) + CharacterRows(media[..i])
    {
      var m := media[i];
      var nodes := m.characters.nodes;
      ghost var start := charaArray.rows;
      for j := 0 to |nodes|
        invariant charaArray.rows == start + CharacterBlock(CharacterMedia(m.id, m.title, Characters(nodes[..j])))
      {
        assert nodes[..j + 1][..j] == nodes[..j];
        charaArray.Append(CharacterRow(m, nodes[j]));
      }
      assert nodes[..|nodes|] == nodes;
      assert CharacterMedia(m.id, m.title, Characters(nodes)) == m;
      FlatMapStep(old(charaArray.rows), start, charaArray.rows, media, i, CharacterBlock);
    }
    assert media[..|media|] == media;
  }
}

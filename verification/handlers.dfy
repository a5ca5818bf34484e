/**
 * The request handlers (game-tip-service.py), each a pure function from the
 * store before the request and the request's inputs to the store after it
 * and the response or error.
 */
module Handlers {
  import opened Wrappers
  import opened ObjectIds
  import opened Documents
  import opened Models
  import opened Errors
  import opened Gateway

  /** A response body: one document (or null), or the documents a query selected, keyed by `_id`. */
  datatype Response = One(doc: Option<Document>) | Many(docs: Collection)

  /** What a request leaves behind: the store after it, and its response or error. */
  datatype Reply = Reply(store: Store, result: Result<Response, Error>)

  /** `ObjectId(raw)` on a request parameter: raises on anything but 24 hex digits. */
  function ParamId(raw: string): (r: Result<ObjectId, Error>)
    ensures r.Failure? <==> !IsHex24(raw)
    ensures r.Failure? ==> r.error == InvalidId(raw)
    ensures r.Success? ==> ToString(r.value) == ToLower(raw)
  {
    match Parse(raw)
    case Some(id) => Success(id)
    case None => Failure(InvalidId(raw))
  }

  /** Python truthiness of an optional string parameter: absent and empty are both false. */
  predicate Given(p: Option<string>) {
    p.Some? && p.value != ""
  }

  /** The reply to a malformed identifier: the error, raised before the store is read or written. */
  predicate Rejected(st: Store, raw: string, r: Reply) {
    r == Reply(st, Failure(InvalidId(raw)))
  }

  /** The reply of a lookup by `_id`: the stored document, or null when absent; never an error; store untouched. */
  predicate LookedUp(st: Store, name: string, key: Value, r: Reply) {
    && r.store == st
    && r.result.Success? && r.result.value.One?
    && (r.result.value.doc.Some? <==> key in Coll(st, name))
    && (r.result.value.doc.Some? ==> r.result.value.doc.value == Coll(st, name)[key])
  }

  // ---------------------------------------------------------------- read-only lookups

  /** GET /experience/{exp_level_id}: the level is keyed by a plain integer, so nothing can be malformed. */
  function GetExperienceLevel(st: Store, expLevelId: int): (r: Reply)
    ensures LookedUp(st, ExperienceLevels, Int(expLevelId), r)
  {
    Reply(st, Success(One(FindById(st, ExperienceLevels, Int(expLevelId)))))
  }

  /** GET /games: every stored game. */
  function GetAllGames(st: Store): (r: Reply)
    ensures r.store == st
    ensures r.result.Success? && r.result.value.Many?
    ensures r.result.value.docs == Coll(st, Games)
  {
    Reply(st, Success(Many(Find(st, Games, map[]))))
  }

  /** GET /games/{id} */
  function GetGame(st: Store, id: string): (r: Reply)
    ensures !IsHex24(id) ==> Rejected(st, id, r)
    ensures IsHex24(id) ==> LookedUp(st, Games, Id(Parse(id).value), r)
  {
    match ParamId(id)
    case Failure(e) => Reply(st, Failure(e))
    case Success(oid) => Reply(st, Success(One(FindById(st, Games, Id(oid)))))
  }

  /** GET /tips/{id} */
  function GetTip(st: Store, id: string): (r: Reply)
    ensures !IsHex24(id) ==> Rejected(st, id, r)
    ensures IsHex24(id) ==> LookedUp(st, Tips, Id(Parse(id).value), r)
  {
    match ParamId(id)
    case Failure(e) => Reply(st, Failure(e))
    case Success(oid) => Reply(st, Success(One(FindById(st, Tips, Id(oid)))))
  }

  // ---------------------------------------------------------------- GET /tips

  /** The query parameters of GET /tips; `None` is a parameter left out of the request. */
  datatype TipQuery = TipQuery(gameId: Option<string>, experience: Option<int>, spoilerFree: Option<bool>)

  /** The filter GET /tips builds: each parameter contributes only when truthy. */
  function TipsFilter(q: TipQuery): (r: Result<Filter, Error>)
    ensures r.Failure? <==> Given(q.gameId) && !IsHex24(q.gameId.value)
    ensures r.Failure? ==> r.error == InvalidId(q.gameId.value)
    ensures r.Success? ==> r.value.Keys <= {"game_id", "experience_id", "spoiler_free"}
    ensures r.Success? ==> ("game_id" in r.value <==> Given(q.gameId))
    ensures r.Success? ==> ("experience_id" in r.value <==> q.experience.Some? && q.experience.value != 0)
    ensures r.Success? ==> ("spoiler_free" in r.value <==> q.spoilerFree == Some(true))
    ensures r.Success? && "game_id" in r.value ==> r.value["game_id"] == Eq(Id(Parse(q.gameId.value).value))
    ensures r.Success? && "experience_id" in r.value ==> r.value["experience_id"] == Eq(Int(q.experience.value))
    ensures r.Success? && "spoiler_free" in r.value ==> r.value["spoiler_free"] == Eq(Bool(true))
  {
    var byGame: Result<Filter, Error> :=
      if Given(q.gameId) then
        match ParamId(q.gameId.value)
        case Success(g) => Success(map["game_id" := Eq(Id(g))])
        case Failure(e) => Failure(e)
      else Success(map[]);
    if byGame.Failure? then byGame
    else
      var byExperience :=
        if q.experience.Some? && q.experience.value != 0 then byGame.value["experience_id" := Eq(Int(q.experience.value))]
        else byGame.value;
      var bySpoilers :=
        if q.spoilerFree.GetOr(false) == true then byExperience["spoiler_free" := Eq(Bool(true))]
        else byExperience;
      Success(bySpoilers)
  }

  /** GET /tips: the stored tips matching every entry of the filter. */
  function GetTips(st: Store, q: TipQuery): (r: Reply)
    ensures TipsFilter(q).Failure? ==> Rejected(st, q.gameId.value, r)
    ensures TipsFilter(q).Success? ==>
      && r.store == st
      && r.result.Success? && r.result.value.Many?
      && var f := TipsFilter(q).value;
         var docs := r.result.value.docs;
         && (forall key :: key in docs ==> key in Coll(st, Tips) && docs[key] == Coll(st, Tips)[key] && Matches(docs[key], f))
         && (forall key :: key in Coll(st, Tips) && Matches(Coll(st, Tips)[key], f) ==> key in docs)
  {
    match TipsFilter(q)
    case Failure(e) => Reply(st, Failure(e))
    case Success(f) => Reply(st, Success(Many(Find(st, Tips, f))))
  }

  /** Which tips a query selects, field by field, independently of how the filter is built. */
  predicate Selected(q: TipQuery, tip: Document)
    requires !Given(q.gameId) || IsHex24(q.gameId.value)
  {
    && (Given(q.gameId) ==> "game_id" in tip && tip["game_id"] == Id(Parse(q.gameId.value).value))
    && (q.experience.Some? && q.experience.value != 0 ==>
          "experience_id" in tip && tip["experience_id"] == Int(q.experience.value))
    && (q.spoilerFree == Some(true) ==> "spoiler_free" in tip && tip["spoiler_free"] == Bool(true))
  }

  lemma FilterMatchesSelected(q: TipQuery, tip: Document)
    requires !Given(q.gameId) || IsHex24(q.gameId.value)
    ensures TipsFilter(q).Success?
    ensures Matches(tip, TipsFilter(q).value) <==> Selected(q, tip)
  {
  }

  /**
   * GET /tips returns exactly the intersection of what the supplied parameters
   * ask for: the tips of that game, at that experience level, without spoilers.
   */
  lemma GetTipsReturnsSelected(st: Store, q: TipQuery)
    requires !Given(q.gameId) || IsHex24(q.gameId.value)
    ensures GetTips(st, q).result.Success?
    ensures var docs := GetTips(st, q).result.value.docs;
      && docs.Keys <= Coll(st, Tips).Keys
      && forall key :: key in Coll(st, Tips) ==> (key in docs <==> Selected(q, Coll(st, Tips)[key]))
  {
  }

  /** `spoiler_free=false` filters on nothing: it selects the same tips as leaving the parameter out. */
  lemma SpoilerFreeFalseIsOmitted(st: Store, q: TipQuery)
    ensures TipsFilter(q.(spoilerFree := Some(false))) == TipsFilter(q.(spoilerFree := None))
    ensures GetTips(st, q.(spoilerFree := Some(false))) == GetTips(st, q.(spoilerFree := None))
  {
  }

  // ---------------------------------------------------------------- PATCH /tips/{id}/like

  /**
   * The outcome of liking the stored tip at `key`: its `likes` goes up by one
   * (a missing count counts as 0) and the updated tip is returned; a
   * non-integer count is refused by the store, which then stays as it was.
   */
  predicate Liked(st: Store, key: Value, r: Reply)
    requires key in Coll(st, Tips)
  {
    var tip := Coll(st, Tips)[key];
    if "likes" in tip && !tip["likes"].Int? then
      r.store == st && r.result.Failure? && r.result.error.PersistenceError?
    else
      var n := if "likes" in tip then tip["likes"].i else 0;
      var liked := tip["likes" := Int(n + 1)];
      r == Reply(st[Tips := Coll(st, Tips)[key := liked]], Success(One(Some(liked))))
  }

  /** PATCH /tips/{id}/like: increment, report "not modified" when nothing changed, else fetch again. */
  function AddLikeToTip(st: Store, id: string): (r: Reply)
    ensures !IsHex24(id) ==> Rejected(st, id, r)
    ensures IsHex24(id) && Id(Parse(id).value) !in Coll(st, Tips) ==> r == Reply(st, Failure(NotModified(id)))
    ensures IsHex24(id) && Id(Parse(id).value) in Coll(st, Tips) ==> Liked(st, Id(Parse(id).value), r)
  {
    match ParamId(id)
    case Failure(e) => Reply(st, Failure(e))
    case Success(oid) =>
      match IncrementOne(st, Tips, Id(oid), "likes", 1)
      case Failure(e) => Reply(st, Failure(e))
      case Success(update) =>
        if update.modifiedCount == 0 then Reply(update.store, Failure(NotModified(id)))
        else
          match FindById(update.store, Tips, Id(oid))
          case Some(tip) => Reply(update.store, Success(One(Some(tip))))
          case None => Reply(update.store, Failure(NotFound(id)))
  }

  /** The not-found branch after a successful increment cannot be taken when requests run one at a time. */
  lemma LikeNeverNotFound(st: Store, id: string)
    ensures !(AddLikeToTip(st, id).result.Failure? && AddLikeToTip(st, id).result.error.NotFound?)
  {
  }

  /**
   * Liking a tip whose count is `n` returns it with `n + 1`, every other field
   * as it was; every other tip and every other collection is left alone.
   */
  lemma LikeIncrementsByOne(st: Store, id: string, n: int)
    requires IsHex24(id)
    requires Id(Parse(id).value) in Coll(st, Tips)
    requires "likes" in Coll(st, Tips)[Id(Parse(id).value)]
    requires Coll(st, Tips)[Id(Parse(id).value)]["likes"] == Int(n)
    ensures var key := Id(Parse(id).value);
      var r := AddLikeToTip(st, id);
      && r.result.Success? && r.result.value.One? && r.result.value.doc.Some?
      && var tip := r.result.value.doc.value;
         && "likes" in tip && tip["likes"] == Int(n + 1)
         && tip.Keys == Coll(st, Tips)[key].Keys
         && (forall f :: f in tip && f != "likes" ==> tip[f] == Coll(st, Tips)[key][f])
         && Coll(r.store, Tips).Keys == Coll(st, Tips).Keys
         && (forall k :: k in Coll(st, Tips) && k != key ==> Coll(r.store, Tips)[k] == Coll(st, Tips)[k])
         && (forall name :: name != Tips ==> Coll(r.store, name) == Coll(st, name))
  {
  }

  /** Two likes in a row add two: no like is lost when requests run one after another. */
  lemma LikeTwice(st: Store, id: string, n: int)
    requires IsHex24(id)
    requires Id(Parse(id).value) in Coll(st, Tips)
    requires "likes" in Coll(st, Tips)[Id(Parse(id).value)]
    requires Coll(st, Tips)[Id(Parse(id).value)]["likes"] == Int(n)
    ensures var second := AddLikeToTip(AddLikeToTip(st, id).store, id);
      && second.result.Success? && second.result.value.One? && second.result.value.doc.Some?
      && "likes" in second.result.value.doc.value
      && second.result.value.doc.value["likes"] == Int(n + 2)
  {
  }

  /** No request lowers a stored like count: a like raises one count by one and leaves the rest. */
  lemma LikesNeverDecrease(st: Store, id: string, key: Value, n: int)
    requires key in Coll(st, Tips) && "likes" in Coll(st, Tips)[key] && Coll(st, Tips)[key]["likes"] == Int(n)
    ensures var after := Coll(AddLikeToTip(st, id).store, Tips);
      && key in after && "likes" in after[key] && after[key]["likes"].Int?
      && n <= after[key]["likes"].i <= n + 1
  {
  }

  // ---------------------------------------------------------------- reports

  /** A stored `tip_id` names the tip: as an identifier, or as its text (how the API itself stores it). */
  predicate NamesTip(v: Value, tipId: ObjectId) {
    v == Id(tipId) || v == Str(ToString(tipId))
  }

  /** The filter of GET /reports: a given `tip_id` matches either way a report may have stored it. */
  function ReportsFilter(tipId: Option<string>): (r: Result<Filter, Error>)
    ensures r.Failure? <==> Given(tipId) && !IsHex24(tipId.value)
    ensures r.Failure? ==> r.error == InvalidId(tipId.value)
    ensures r.Success? && !Given(tipId) ==> r.value == map[]
    ensures r.Success? && Given(tipId) ==>
      r.value.Keys == {"tip_id"}
      && forall v :: Satisfies(v, r.value["tip_id"]) <==> NamesTip(v, Parse(tipId.value).value)
  {
    if Given(tipId) then
      match ParamId(tipId.value)
      case Success(t) => Success(map["tip_id" := AnyOf({Id(t), Str(ToString(t))})])
      case Failure(e) => Failure(e)
    else Success(map[])
  }

  /** GET /reports: all reports, or those whose `tip_id` names the given tip. */
  function GetAllReports(st: Store, tipId: Option<string>): (r: Reply)
    ensures Given(tipId) && !IsHex24(tipId.value) ==> Rejected(st, tipId.value, r)
    ensures !Given(tipId) ==> r == Reply(st, Success(Many(Coll(st, Reports))))
    ensures Given(tipId) && IsHex24(tipId.value) ==>
      && r.store == st && r.result.Success? && r.result.value.Many?
      && var t := Parse(tipId.value).value;
         var docs := r.result.value.docs;
         && docs.Keys <= Coll(st, Reports).Keys
         && forall key :: key in Coll(st, Reports) ==>
              (key in docs <==> "tip_id" in Coll(st, Reports)[key] && NamesTip(Coll(st, Reports)[key]["tip_id"], t))
  {
    match ReportsFilter(tipId)
    case Failure(e) => Reply(st, Failure(e))
    case Success(f) =>
      var docs := Find(st, Reports, f);
      assert Given(tipId) ==> forall key :: key in Coll(st, Reports) ==>
        (key in docs <==> "tip_id" in Coll(st, Reports)[key] && Satisfies(Coll(st, Reports)[key]["tip_id"], f["tip_id"]));
      Reply(st, Success(Many(docs)))
  }

  /** GET /reports exactly as written: the given `tip_id` is compared with an identifier only. */
  function GetAllReportsAsWritten(st: Store, tipId: Option<string>): (r: Reply)
    ensures Given(tipId) && !IsHex24(tipId.value) ==> Rejected(st, tipId.value, r)
    ensures !Given(tipId) ==> r == Reply(st, Success(Many(Coll(st, Reports))))
    ensures Given(tipId) && IsHex24(tipId.value) ==>
      && r.store == st && r.result.Success? && r.result.value.Many?
      && var docs := r.result.value.docs;
         && docs.Keys <= Coll(st, Reports).Keys
         && forall key :: key in Coll(st, Reports) ==>
              (key in docs <==> "tip_id" in Coll(st, Reports)[key] && Coll(st, Reports)[key]["tip_id"] == Id(Parse(tipId.value).value))
  {
    if Given(tipId) then
      match ParamId(tipId.value)
      case Failure(e) => Reply(st, Failure(e))
      case Success(t) =>
        var f := map["tip_id" := Eq(Id(t))];
        var docs := Find(st, Reports, f);
        assert forall key :: key in Coll(st, Reports) ==>
          (key in docs <==> "tip_id" in Coll(st, Reports)[key] && Satisfies(Coll(st, Reports)[key]["tip_id"], f["tip_id"]));
        Reply(st, Success(Many(docs)))
    else Reply(st, Success(Many(Find(st, Reports, map[]))))
  }

  /**
   * The outcome of filing a validated report for an existing tip: its JSON
   * form goes into the reports collection under its own `_id` (refused when
   * that `_id` is taken) and is returned as stored.
   */
  predicate Filed(st: Store, report: Report, r: Reply) {
    var key := SerializeId(report.id);
    var doc := EncodeReport(report);
    if key in Coll(st, Reports) then
      r.store == st && r.result.Failure? && r.result.error.PersistenceError?
    else
      r == Reply(st[Reports := Coll(st, Reports)[key := doc]], Success(One(Some(doc))))
  }

  /**
   * POST /reports: validate the body, check that the tip exists, insert the
   * report's JSON form and return it as fetched back from the store.
   */
  function ReportTip(st: Store, body: Document, freshId: ObjectId): (r: Reply)
    ensures ValidateReport(body, freshId).Failure? ==>
      r == Reply(st, Failure(ValidationError(ValidateReport(body, freshId).error)))
    ensures ValidateReport(body, freshId).Success? ==>
      var report := ValidateReport(body, freshId).value;
      && (Id(report.tipId) !in Coll(st, Tips) ==> r == Reply(st, Failure(UnprocessableEntity(ToString(report.tipId)))))
      && (Id(report.tipId) in Coll(st, Tips) ==> Filed(st, report, r))
  {
    match ValidateReport(body, freshId)
    case Failure(fields) => Reply(st, Failure(ValidationError(fields)))
    case Success(report) =>
      if FindById(st, Tips, Id(report.tipId)).None? then
        Reply(st, Failure(UnprocessableEntity(ToString(report.tipId))))
      else
        var doc := EncodeReport(report);
        assert doc["_id" := SerializeId(report.id)] == doc;
        match InsertOne(st, Reports, doc, freshId)
        case Failure(e) => Reply(st, Failure(e))
        case Success(inserted) =>
          match FindById(inserted.store, Reports, inserted.insertedId)
          case Some(created) => Reply(inserted.store, Success(One(Some(created))))
          case None => Reply(inserted.store, Failure(UnprocessableEntity(ToString(report.id))))
  }

  /**
   * Reporting an existing tip adds exactly one report and changes nothing
   * else; the returned report carries the submitted tip, reason label and
   * description, and validates back to the submitted report.
   */
  lemma ReportAddsExactlyOne(st: Store, body: Document, freshId: ObjectId)
    requires ValidateReport(body, freshId).Success?
    requires Id(ValidateReport(body, freshId).value.tipId) in Coll(st, Tips)
    requires SerializeId(ValidateReport(body, freshId).value.id) !in Coll(st, Reports)
    ensures var report := ValidateReport(body, freshId).value;
      var r := ReportTip(st, body, freshId);
      && Coll(r.store, Reports).Keys == Coll(st, Reports).Keys + {SerializeId(report.id)}
      && |Coll(r.store, Reports)| == |Coll(st, Reports)| + 1
      && (forall k :: k in Coll(st, Reports) ==> Coll(r.store, Reports)[k] == Coll(st, Reports)[k])
      && (forall name :: name != Reports ==> Coll(r.store, name) == Coll(st, name))
      && r.result.Success? && r.result.value.One? && r.result.value.doc.Some?
      && var created := r.result.value.doc.value;
         && ValidateObjectId(created["tip_id"]) == ValidateObjectId(body["tip_id"])
         && created["reason"] == body["reason"]
         && created["description"] == body["description"]
         && ValidateReport(created, freshId) == Success(report)
  {
  }

  /** Reporting an unknown tip fails and inserts nothing. */
  lemma ReportUnknownTipInsertsNothing(st: Store, body: Document, freshId: ObjectId)
    requires ValidateReport(body, freshId).Success?
    requires Id(ValidateReport(body, freshId).value.tipId) !in Coll(st, Tips)
    ensures var r := ReportTip(st, body, freshId);
      && r.result.Failure? && r.result.error.UnprocessableEntity?
      && r.store == st
  {
  }

  // ---------------------------------------------------------------- the tip_id filter of GET /reports

  /**
   * As written, GET /reports?tip_id=T never lists a report filed through
   * POST /reports for T: the report stores `tip_id` as text, and the filter
   * compares it with an identifier.
   */
  lemma FiledReportMissedAsWritten(st: Store, body: Document, freshId: ObjectId)
    requires ValidateReport(body, freshId).Success?
    requires Id(ValidateReport(body, freshId).value.tipId) in Coll(st, Tips)
    requires SerializeId(ValidateReport(body, freshId).value.id) !in Coll(st, Reports)
    ensures var report := ValidateReport(body, freshId).value;
      var after := ReportTip(st, body, freshId).store;
      var listed := GetAllReportsAsWritten(after, Some(ToString(report.tipId)));
      listed.result.Success? && SerializeId(report.id) !in listed.result.value.docs
  {
  }

  /** With the corrected filter, a report filed for T is listed by GET /reports?tip_id=T. */
  lemma FiledReportListed(st: Store, body: Document, freshId: ObjectId)
    requires ValidateReport(body, freshId).Success?
    requires Id(ValidateReport(body, freshId).value.tipId) in Coll(st, Tips)
    requires SerializeId(ValidateReport(body, freshId).value.id) !in Coll(st, Reports)
    ensures var report := ValidateReport(body, freshId).value;
      var after := ReportTip(st, body, freshId).store;
      var listed := GetAllReports(after, Some(ToString(report.tipId)));
      && listed.result.Success?
      && SerializeId(report.id) in listed.result.value.docs
      && listed.result.value.docs[SerializeId(report.id)] == EncodeReport(report)
  {
  }

  // ---------------------------------------------------------------- two worked requests

  /** A stored tip with 3 likes, liked once, is returned with 4. */
  lemma LikeExample()
    ensures var key := Id(ObjectId("64c3cdfbd54e7b39dc4b1d74"));
      var tip := map["_id" := key, "likes" := Int(3)];
      var r := AddLikeToTip(map[Tips := map[key := tip]], "64c3cdfbd54e7b39dc4b1d74");
      r.result == Success(One(Some(tip["likes" := Int(4)])))
  {
    var key := Id(ObjectId("64c3cdfbd54e7b39dc4b1d74"));
    var tip := map["_id" := key, "likes" := Int(3)];
    LikeIncrementsByOne(map[Tips := map[key := tip]], "64c3cdfbd54e7b39dc4b1d74", 3);
  }

  /** Reporting a tip the store does not hold is refused as unprocessable. */
  lemma ReportUnknownTipExample(freshId: ObjectId)
    ensures var body := map["tip_id" := Str("000000000000000000000000"), "reason" := Str("Typo"),
                            "description" := Str("x")];
      var r := ReportTip(map[], body, freshId);
      r == Reply(map[], Failure(UnprocessableEntity("000000000000000000000000")))
  {
  }

  // ---------------------------------------------------------------- store invariant

  /** The only writing handlers keep every document filed under its own `_id`. */
  lemma WritesPreserveWellFormed(st: Store, id: string, body: Document, freshId: ObjectId)
    requires WellFormed(st)
    ensures WellFormed(AddLikeToTip(st, id).store)
    ensures WellFormed(ReportTip(st, body, freshId).store)
  {
  }
}

/**
 * The entity schemas (models.py): how a raw document is validated into a
 * Game, ExperienceLevel, Tip or Report, and how an entity is encoded back
 * into a JSON document (identifiers as strings, reasons as labels).
 */
module Models {
  import opened Wrappers
  import opened ObjectIds
  import opened Documents

  // ---------------------------------------------------------------- identifiers

  /**
   * The validator behind every identifier field: an identifier is kept as it
   * is, a string is accepted when the identifier constructor accepts it, and
   * every other value is rejected.
   */
  function ValidateObjectId(v: Value): (r: Option<ObjectId>)
    ensures v.Id? ==> r == Some(v.id)
    ensures v.Str? ==> (r.Some? <==> IsHex24(v.s))
    ensures v.Str? && r.Some? ==> ToString(r.value) == ToLower(v.s)
    ensures v.Str? && IsCanonical(v.s) ==> r.Some? && ToString(r.value) == v.s
    ensures !v.Id? && !v.Str? ==> r.None?
  {
    match v
    case Id(id) => Some(id)
    case Str(s) => Parse(s)
    case _ => None
  }

  /** The serializer of identifier fields: a plain string the validator maps back to the same identifier. */
  function SerializeId(id: ObjectId): (v: Value)
    ensures v.Str? && IsCanonical(v.s)
    ensures ValidateObjectId(v) == Some(id)
  {
    Str(ToString(id))
  }

  // ---------------------------------------------------------------- report reasons

  /** The closed set of reasons a tip can be reported for. */
  datatype Reason = Incorrect | Outdated | Typo

  /** The label each reason is stored and serialized as. */
  function Label(reason: Reason): string {
    match reason
    case Incorrect => "Incorrect Information"
    case Outdated => "Outdated"
    case Typo => "Typo"
  }

  /** Enumeration validation by value: only a string equal to some label is accepted. */
  function ParseReason(v: Value): (r: Option<Reason>)
    ensures r.Some? ==> v == Str(Label(r.value))
    ensures (exists x :: v == Str(Label(x))) ==> r.Some?
  {
    if v == Str("Incorrect Information") then Some(Incorrect)
    else if v == Str("Outdated") then Some(Outdated)
    else if v == Str("Typo") then Some(Typo)
    else None
  }

  /** The label table is injective, so every label decodes back to its reason. */
  lemma ReasonLabelsDecode(a: Reason, b: Reason)
    ensures ParseReason(Str(Label(a))) == Some(a)
    ensures Label(a) == Label(b) <==> a == b
  {
  }

  // ---------------------------------------------------------------- field readers

  /** An identifier field with a default factory: absent means the freshly generated `freshId`. */
  function DefaultedId(d: Document, freshId: ObjectId): Option<ObjectId> {
    if "_id" in d then ValidateObjectId(d["_id"]) else Some(freshId)
  }

  function RequiredId(d: Document, name: string): Option<ObjectId> {
    if name in d then ValidateObjectId(d[name]) else None
  }

  function StrField(d: Document, name: string): Option<string> {
    if name in d && d[name].Str? then Some(d[name].s) else None
  }

  function IntField(d: Document, name: string): Option<int> {
    if name in d && d[name].Int? then Some(d[name].i) else None
  }

  function BoolField(d: Document, name: string): Option<bool> {
    if name in d && d[name].Bool? then Some(d[name].b) else None
  }

  /** The field's location when its value is missing or rejected. */
  function Complaint<T>(name: string, field: Option<T>): seq<string> {
    if field.None? then [name] else []
  }

  // ---------------------------------------------------------------- entities

  datatype Game = Game(id: ObjectId, title: string, description: string)

  datatype ExperienceLevel = ExperienceLevel(id: int, level: string, color: string, labelText: string)

  datatype Tip = Tip(
    id: ObjectId,
    gameId: ObjectId,
    experienceId: int,
    spoilerFree: bool,
    title: string,
    description: string,
    likes: int)

  datatype Report = Report(id: ObjectId, tipId: ObjectId, reason: Reason, description: string)

  /** The range constraints of a tip: `1 <= experience_id < 4` and `likes >= 0`. */
  predicate ValidTip(t: Tip) {
    1 <= t.experienceId < 4 && t.likes >= 0
  }

  /** The identifier of an entity: the stored `_id`, or the default when the document has none. */
  predicate IdFrom(d: Document, freshId: ObjectId, id: ObjectId) {
    if "_id" in d then ValidateObjectId(d["_id"]) == Some(id) else id == freshId
  }

  function ValidateGame(d: Document, freshId: ObjectId): (r: Result<Game, seq<string>>)
    ensures r.Success? ==>
      && IdFrom(d, freshId, r.value.id)
      && "title" in d && d["title"] == Str(r.value.title)
      && "description" in d && d["description"] == Str(r.value.description)
    ensures r.Failure? ==>
      && r.error != []
      && (forall f :: f in r.error ==> f in {"_id", "title", "description"})
      && ("_id" in r.error <==> "_id" in d && ValidateObjectId(d["_id"]).None?)
      && ("title" in r.error <==> !("title" in d && d["title"].Str?))
      && ("description" in r.error <==> !("description" in d && d["description"].Str?))
  {
    var id := DefaultedId(d, freshId);
    var title := StrField(d, "title");
    var description := StrField(d, "description");
    if id.Some? && title.Some? && description.Some? then
      Success(Game(id.value, title.value, description.value))
    else
      Failure(Complaint("_id", id) + Complaint("title", title) + Complaint("description", description))
  }

  function ValidateExperienceLevel(d: Document): (r: Result<ExperienceLevel, seq<string>>)
    ensures r.Success? ==>
      && "_id" in d && d["_id"] == Int(r.value.id)
      && "level" in d && d["level"] == Str(r.value.level)
      && "color" in d && d["color"] == Str(r.value.color)
      && "label" in d && d["label"] == Str(r.value.labelText)
    ensures r.Failure? ==>
      && r.error != []
      && (forall f :: f in r.error ==> f in {"_id", "level", "color", "label"})
      && ("_id" in r.error <==> !("_id" in d && d["_id"].Int?))
      && ("level" in r.error <==> !("level" in d && d["level"].Str?))
      && ("color" in r.error <==> !("color" in d && d["color"].Str?))
      && ("label" in r.error <==> !("label" in d && d["label"].Str?))
  {
    var id := IntField(d, "_id");
    var level := StrField(d, "level");
    var color := StrField(d, "color");
    var labelText := StrField(d, "label");
    if id.Some? && level.Some? && color.Some? && labelText.Some? then
      Success(ExperienceLevel(id.value, level.value, color.value, labelText.value))
    else
      Failure(Complaint("_id", id) + Complaint("level", level) + Complaint("color", color) + Complaint("label", labelText))
  }

  /** `experience_id`: an integer with `1 <= v < 4`. */
  function ExperienceIdField(d: Document): Option<int> {
    match IntField(d, "experience_id")
    case Some(e) => if 1 <= e < 4 then Some(e) else None
    case None => None
  }

  /** `likes`: an integer with `v >= 0`. */
  function LikesField(d: Document): Option<int> {
    match IntField(d, "likes")
    case Some(n) => if n >= 0 then Some(n) else None
    case None => None
  }

  function ValidateTip(d: Document, freshId: ObjectId): (r: Result<Tip, seq<string>>)
    ensures r.Success? ==> ValidTip(r.value)
    ensures r.Success? ==>
      && IdFrom(d, freshId, r.value.id)
      && "game_id" in d && ValidateObjectId(d["game_id"]) == Some(r.value.gameId)
      && "experience_id" in d && d["experience_id"] == Int(r.value.experienceId)
      && "spoiler_free" in d && d["spoiler_free"] == Bool(r.value.spoilerFree)
      && "title" in d && d["title"] == Str(r.value.title)
      && "description" in d && d["description"] == Str(r.value.description)
      && "likes" in d && d["likes"] == Int(r.value.likes)
    ensures r.Failure? ==>
      && r.error != []
      && (forall f :: f in r.error ==>
            f in {"_id", "game_id", "experience_id", "spoiler_free", "title", "description", "likes"})
      && ("experience_id" in r.error <==>
            !("experience_id" in d && d["experience_id"].Int? && 1 <= d["experience_id"].i < 4))
      && ("likes" in r.error <==> !("likes" in d && d["likes"].Int? && d["likes"].i >= 0))
  {
    var id := DefaultedId(d, freshId);
    var gameId := RequiredId(d, "game_id");
    var experienceId := ExperienceIdField(d);
    var spoilerFree := BoolField(d, "spoiler_free");
    var title := StrField(d, "title");
    var description := StrField(d, "description");
    var likes := LikesField(d);
    if id.Some? && gameId.Some? && experienceId.Some? && spoilerFree.Some?
       && title.Some? && description.Some? && likes.Some?
    then
      Success(Tip(id.value, gameId.value, experienceId.value, spoilerFree.value,
                  title.value, description.value, likes.value))
    else
      Failure(Complaint("_id", id) + Complaint("game_id", gameId) + Complaint("experience_id", experienceId)
              + Complaint("spoiler_free", spoilerFree) + Complaint("title", title)
              + Complaint("description", description) + Complaint("likes", likes))
  }

  /** A rejected tip names every field it failed on, and only those. */
  lemma TipErrorsNameRejectedFields(d: Document, freshId: ObjectId)
    requires ValidateTip(d, freshId).Failure?
    ensures var e := ValidateTip(d, freshId).error;
      && ("_id" in e <==> "_id" in d && ValidateObjectId(d["_id"]).None?)
      && ("game_id" in e <==> !("game_id" in d && ValidateObjectId(d["game_id"]).Some?))
      && ("spoiler_free" in e <==> !("spoiler_free" in d && d["spoiler_free"].Bool?))
      && ("title" in e <==> !("title" in d && d["title"].Str?))
      && ("description" in e <==> !("description" in d && d["description"].Str?))
  {
    var front := Complaint("_id", DefaultedId(d, freshId)) + Complaint("game_id", RequiredId(d, "game_id"))
                 + Complaint("experience_id", ExperienceIdField(d));
    var back := Complaint("spoiler_free", BoolField(d, "spoiler_free")) + Complaint("title", StrField(d, "title"))
                + Complaint("description", StrField(d, "description")) + Complaint("likes", LikesField(d));
    assert ValidateTip(d, freshId).error == front + back;
  }

  function ValidateReport(d: Document, freshId: ObjectId): (r: Result<Report, seq<string>>)
    ensures r.Success? ==>
      && IdFrom(d, freshId, r.value.id)
      && "tip_id" in d && ValidateObjectId(d["tip_id"]) == Some(r.value.tipId)
      && "reason" in d && d["reason"] == Str(Label(r.value.reason))
      && "description" in d && d["description"] == Str(r.value.description)
    ensures r.Failure? ==>
      && r.error != []
      && (forall f :: f in r.error ==> f in {"_id", "tip_id", "reason", "description"})
      && ("_id" in r.error <==> "_id" in d && ValidateObjectId(d["_id"]).None?)
      && ("description" in r.error <==> !("description" in d && d["description"].Str?))
      && ("tip_id" in r.error <==> !("tip_id" in d && ValidateObjectId(d["tip_id"]).Some?))
      && ("reason" in r.error <==> !("reason" in d && ParseReason(d["reason"]).Some?))
  {
    var id := DefaultedId(d, freshId);
    var tipId := RequiredId(d, "tip_id");
    var reason := if "reason" in d then ParseReason(d["reason"]) else None;
    var description := StrField(d, "description");
    if id.Some? && tipId.Some? && reason.Some? && description.Some? then
      Success(Report(id.value, tipId.value, reason.value, description.value))
    else
      Failure(Complaint("_id", id) + Complaint("tip_id", tipId) + Complaint("reason", reason)
              + Complaint("description", description))
  }

  // ---------------------------------------------------------------- encoding

  /** A document holds no store identifier: every identifier has become its text. */
  predicate PlainJson(d: Document) {
    forall k :: k in d ==> !d[k].Id?
  }

  function EncodeGame(g: Game): (d: Document)
    ensures d.Keys == {"_id", "title", "description"}
    ensures PlainJson(d)
  {
    map["_id" := SerializeId(g.id), "title" := Str(g.title), "description" := Str(g.description)]
  }

  function EncodeExperienceLevel(e: ExperienceLevel): (d: Document)
    ensures d.Keys == {"_id", "level", "color", "label"}
    ensures PlainJson(d)
  {
    map["_id" := Int(e.id), "level" := Str(e.level), "color" := Str(e.color), "label" := Str(e.labelText)]
  }

  function EncodeTip(t: Tip): (d: Document)
    ensures d.Keys == {"_id", "game_id", "experience_id", "spoiler_free", "title", "description", "likes"}
    ensures PlainJson(d)
  {
    map["_id" := SerializeId(t.id), "game_id" := SerializeId(t.gameId),
        "experience_id" := Int(t.experienceId), "spoiler_free" := Bool(t.spoilerFree),
        "title" := Str(t.title), "description" := Str(t.description), "likes" := Int(t.likes)]
  }

  /** The JSON form of a report: identifiers as strings, the reason as its label. */
  function EncodeReport(r: Report): (d: Document)
    ensures d.Keys == {"_id", "tip_id", "reason", "description"}
    ensures PlainJson(d)
    ensures d["tip_id"] == Str(ToString(r.tipId)) && d["reason"] == Str(Label(r.reason))
  {
    map["_id" := SerializeId(r.id), "tip_id" := SerializeId(r.tipId),
        "reason" := Str(Label(r.reason)), "description" := Str(r.description)]
  }

  // ---------------------------------------------------------------- round trips

  lemma GameRoundTrip(g: Game, freshId: ObjectId)
    ensures ValidateGame(EncodeGame(g), freshId) == Success(g)
  {
  }

  lemma ExperienceLevelRoundTrip(e: ExperienceLevel)
    ensures ValidateExperienceLevel(EncodeExperienceLevel(e)) == Success(e)
  {
  }

  /** An encoded tip validates back to itself exactly when it satisfies the range constraints. */
  lemma TipRoundTrip(t: Tip, freshId: ObjectId)
    ensures ValidateTip(EncodeTip(t), freshId) == Success(t) <==> ValidTip(t)
  {
  }

  lemma ReportRoundTrip(r: Report, freshId: ObjectId)
    ensures ValidateReport(EncodeReport(r), freshId) == Success(r)
  {
  }
}

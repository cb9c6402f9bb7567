/**
 * The soldier roster and health rules of WebPage.js: the classifiers
 * `getStatusIcon` and `getHealthColor`, the health-to-status rule, the bar,
 * indicator and notification rules of `updateSoldierHealth` and
 * `showHealthUpdateNotification`, the clamp of `adjustHealth`, and the
 * in-place changes `addSoldierInfo`, `deleteSoldierInfo` and
 * `updateSoldierHealth` make to the `soldiers` array.
 *
 * The answers to `prompt` and `confirm` are parameters; the DOM writes are
 * returned as values or left out.
 */
module SoldierRoster {
  import opened Options

  /** A JavaScript number as this code can produce it: an integer, or the NaN of a failed `parseInt`. */
  datatype JsNum = Num(n: int) | NaN

  /** `h >= k`; false for NaN. */
  predicate AtLeast(h: JsNum, k: int)
  {
    h.Num? && h.n >= k
  }

  /** `h > k`; false for NaN. */
  predicate Above(h: JsNum, k: int)
  {
    h.Num? && h.n > k
  }

  /** `h < k`; false for NaN. */
  predicate Below(h: JsNum, k: int)
  {
    h.Num? && h.n < k
  }

  /** The four status strings this code stores in a soldier record. */
  datatype Status = Operational | Caution | Critical | Dead

  function StatusName(st: Status): string
  {
    match st
    case Operational => "operational"
    case Caution => "caution"
    case Critical => "critical"
    case Dead => "dead"
  }

  /** The status as `showHealthUpdateNotification` spells it. */
  function StatusLabel(st: Status): string
  {
    match st
    case Operational => "OPERATIONAL"
    case Caution => "CAUTION"
    case Critical => "CRITICAL"
    case Dead => "DEAD"
  }

  /** How bad a status is, from 0 (operational) to 3 (dead). */
  function Severity(st: Status): nat
  {
    match st
    case Operational => 0
    case Caution => 1
    case Critical => 2
    case Dead => 3
  }

  /** The status rule that `updateSoldierHealth` and `addSoldierInfo` both apply. */
  function StatusFor(h: JsNum): (st: Status)
    ensures st == Dead <==> !Above(h, 0)
    ensures AtLeast(h, 70) <==> st == Operational
    ensures st == Caution <==> AtLeast(h, 40) && !AtLeast(h, 70)
    ensures st == Critical <==> Above(h, 0) && !AtLeast(h, 40)
  {
    if AtLeast(h, 70) then Operational
    else if AtLeast(h, 40) then Caution
    else if Above(h, 0) then Critical
    else Dead
  }

  /** More health never means a worse status. */
  lemma StatusMonotone(a: int, b: int)
    requires a <= b
    ensures Severity(StatusFor(Num(b))) <= Severity(StatusFor(Num(a)))
  {
  }

  /** `getStatusIcon`: the indicator class for a status string; anything unknown is grey. */
  function StatusIcon(status: string): (icon: string)
    ensures icon in {"status-green", "status-yellow", "status-red", "status-gray"}
    ensures icon == "status-gray" <==> status != "operational" && status != "caution" && status != "critical"
    ensures status == "operational" ==> icon == "status-green"
    ensures status == "caution" ==> icon == "status-yellow"
    ensures status == "critical" ==> icon == "status-red"
  {
    if status == "operational" then "status-green"
    else if status == "caution" then "status-yellow"
    else if status == "critical" then "status-red"
    else "status-gray"
  }

  /**
   * `getHealthColor`: a colour for every health. Its thresholds (80, 50) are
   * not those of the status rule (70, 40), but grey is exactly the dead
   * soldiers and green only ever an operational one.
   */
  function HealthColor(h: JsNum): (colour: string)
    ensures colour in {"#90EE90", "#FFD700", "#FF6B6B", "#999999"}
    ensures colour == "#999999" <==> StatusFor(h) == Dead
    ensures colour == "#90EE90" ==> StatusFor(h) == Operational
    ensures StatusFor(h) == Critical ==> colour == "#FF6B6B"
    ensures colour == "#90EE90" <==> AtLeast(h, 80)
    ensures colour == "#FFD700" <==> AtLeast(h, 50) && !AtLeast(h, 80)
    ensures colour == "#FF6B6B" <==> Above(h, 0) && !AtLeast(h, 50)
  {
    if AtLeast(h, 80) then "#90EE90"
    else if AtLeast(h, 50) then "#FFD700"
    else if Above(h, 0) then "#FF6B6B"
    else "#999999"
  }

  /** `Math.max(0, Math.min(100, h))`: NaN stays NaN, a number lands in 0..100. */
  function Clamp(h: JsNum): (r: JsNum)
    ensures r.NaN? <==> h.NaN?
    ensures r.Num? ==> 0 <= r.n <= 100
    ensures h.Num? && 0 <= h.n <= 100 ==> r == h
    ensures Below(h, 0) ==> r == Num(0)
    ensures Above(h, 100) ==> r == Num(100)
  {
    match h
    case NaN => NaN
    case Num(n) => Num(if n < 0 then 0 else if n > 100 then 100 else n)
  }

  /**
   * The answer to the health prompt of `adjustHealth`: cancelled (null),
   * rejected by `isNaN` (which coerces the whole text), or accepted, with
   * what `parseInt` makes of it. An empty or blank answer passes `isNaN` and
   * still parses to NaN.
   */
  datatype HealthReply = Cancelled | NotNumeric | Numeric(parsed: JsNum)

  /** The health `adjustHealth` hands to `updateSoldierHealth`, if any. */
  function AdjustedHealth(reply: HealthReply): (h: Option<JsNum>)
    ensures h.Some? <==> reply.Numeric?
    ensures h.Some? && h.value.Num? ==> 0 <= h.value.n <= 100
    ensures h.Some? && h.value.NaN? ==> reply.parsed.NaN?
    ensures reply.Numeric? ==> h == Some(Clamp(reply.parsed))
  {
    match reply
    case Numeric(p) => Some(Clamp(p))
    case _ => None
  }

  /** The health-fill class of `updateSoldierHealth`, which agrees with the status from 40 up. */
  function FillClass(h: JsNum): (c: string)
    ensures c == "high" <==> StatusFor(h) == Operational
    ensures c == "medium" <==> StatusFor(h) == Caution
    ensures c == "low" <==> StatusFor(h) == Critical || StatusFor(h) == Dead
  {
    if AtLeast(h, 70) then "high" else if AtLeast(h, 40) then "medium" else "low"
  }

  /**
   * The status-indicator `className` of `updateSoldierHealth`. For a living
   * soldier it carries what `getStatusIcon` gives for the new status; at
   * health 0 it shows red where `getStatusIcon` shows grey.
   */
  function IndicatorClass(h: JsNum): (c: string)
    ensures Above(h, 0) ==> c == "status-indicator " + StatusIcon(StatusName(StatusFor(h)))
    ensures !Above(h, 0) ==> c == "status-indicator status-red" && StatusIcon(StatusName(StatusFor(h))) == "status-gray"
  {
    if AtLeast(h, 70) then "status-indicator status-green"
    else if AtLeast(h, 40) then "status-indicator status-yellow"
    else "status-indicator status-red"
  }

  /**
   * The status word of `showHealthUpdateNotification`. It agrees with the
   * stored status for every health 0..100; for NaN it says OPERATIONAL of a
   * soldier the status rule calls dead.
   */
  function NoticeLabel(h: JsNum): (word: string)
    ensures h.Num? && 0 <= h.n <= 100 ==> word == StatusLabel(StatusFor(h))
    ensures h.NaN? ==> word == "OPERATIONAL" && StatusFor(h) == Dead
  {
    if Below(h, 70) && AtLeast(h, 40) then "CAUTION"
    else if Below(h, 40) && Above(h, 0) then "CRITICAL"
    else if h == Num(0) then "DEAD"
    else "OPERATIONAL"
  }

  /** The notification background, one colour per label. */
  function NoticeColour(h: JsNum): (colour: string)
    ensures colour == "#4CAF50" <==> NoticeLabel(h) == "OPERATIONAL"
    ensures colour == "#9E9E9E" <==> NoticeLabel(h) == "DEAD"
    ensures colour == "#FF9800" <==> NoticeLabel(h) == "CAUTION"
    ensures colour == "#F44336" <==> NoticeLabel(h) == "CRITICAL"
  {
    if Below(h, 70) && AtLeast(h, 40) then "#FF9800"
    else if Below(h, 40) && Above(h, 0) then "#F44336"
    else if h == Num(0) then "#9E9E9E"
    else "#4CAF50"
  }

  /** What `updateSoldierHealth` writes to the page besides the roster. */
  datatype HealthView = HealthView(fill: string, indicator: string, notice: string, background: string)

  function ViewOf(h: JsNum): HealthView
  {
    HealthView(FillClass(h), IndicatorClass(h), NoticeLabel(h), NoticeColour(h))
  }

  /** An empty answer to the health prompt stores NaN, marks the soldier dead and announces OPERATIONAL. */
  lemma EmptyAnswerMisreported()
    ensures AdjustedHealth(Numeric(NaN)) == Some(NaN)
    ensures StatusFor(NaN) == Dead && ViewOf(NaN).notice == "OPERATIONAL"
  {
  }

  /** `toUpperCase` and `toLowerCase` on ASCII letters; other characters are kept. */
  function UpperChar(c: char): char
  {
    if 'a' <= c <= 'z' then (c as int - 32) as char else c
  }

  function LowerChar(c: char): char
  {
    if 'A' <= c <= 'Z' then (c as int + 32) as char else c
  }

  function Upper(s: string): (r: string)
    ensures |r| == |s| && forall i :: 0 <= i < |s| ==> r[i] == UpperChar(s[i])
  {
    if s == [] then [] else [UpperChar(s[0])] + Upper(s[1..])
  }

  function Lower(s: string): (r: string)
    ensures |r| == |s| && forall i :: 0 <= i < |s| ==> r[i] == LowerChar(s[i])
  {
    if s == [] then [] else [LowerChar(s[0])] + Lower(s[1..])
  }

  /** `s.includes(sub)`. */
  predicate Contains(s: string, sub: string)
  {
    sub <= s || (s != [] && Contains(s[1..], sub))
  }

  /** `s.split('-')[0]`: the text before the first dash. */
  function BeforeDash(s: string): (r: string)
    ensures r <= s && '-' !in r
    ensures |r| < |s| ==> s[|r|] == '-'
  {
    if s == [] || s[0] == '-' then [] else [s[0]] + BeforeDash(s[1..])
  }

  /** One entry of the `soldiers` array. */
  datatype Soldier = Soldier(id: string, name: string, health: JsNum, status: Status, lastUpdate: string)

  /** The array as the page starts. */
  const Sample: seq<Soldier> := [
    Soldier("ALPHA-001", "Pvt. Johnson", Num(95), Operational, "2 min ago"),
    Soldier("BRAVO-002", "Cpl. Martinez", Num(65), Caution, "5 min ago"),
    Soldier("CHARLIE-003", "Sgt. Williams", Num(25), Critical, "1 min ago"),
    Soldier("DELTA-004", "Pvt. Brown", Num(88), Operational, "3 min ago"),
    Soldier("ECHO-005", "Cpl. Davis", Num(72), Caution, "4 min ago"),
    Soldier("FOXTROT-006", "Pvt. Wilson", Num(91), Operational, "6 min ago"),
    Soldier("GOLF-007", "Sgt. Taylor", Num(45), Caution, "7 min ago"),
    Soldier("HOTEL-008", "Pvt. Anderson", Num(0), Dead, "15 min ago")
  ]

  /** Every stored status is the one the status rule gives for the stored health. */
  predicate Consistent(soldiers: seq<Soldier>)
  {
    forall i :: 0 <= i < |soldiers| ==> soldiers[i].status == StatusFor(soldiers[i].health)
  }

  /** The sample data breaks the rule: ECHO-005 has health 72 but is stored as caution. */
  lemma SampleBreaksStatusRule()
    ensures !Consistent(Sample)
    ensures Sample[4].id == "ECHO-005" && StatusFor(Sample[4].health) == Operational && Sample[4].status == Caution
  {
    assert Sample[4].status != StatusFor(Sample[4].health);
  }

  /** The two searches: `deleteSoldierInfo`'s by id or name, `updateSoldierHealth`'s by id prefix. */
  datatype Probe = ByIdOrName(query: string) | ByIdPrefix(soldierId: string)

  predicate Hits(s: Soldier, p: Probe)
  {
    match p
    case ByIdOrName(q) => Lower(s.id) == Lower(q) || Contains(Lower(s.name), Lower(q))
    case ByIdPrefix(soldierId) => Contains(s.id, Upper(BeforeDash(soldierId)))
  }

  /** `findIndex`: the first soldier the probe hits. */
  function FindIndex(soldiers: seq<Soldier>, p: Probe): (r: Option<nat>)
    ensures r.Some? ==> r.value < |soldiers| && Hits(soldiers[r.value], p)
    ensures r.Some? ==> forall j :: 0 <= j < r.value ==> !Hits(soldiers[j], p)
    ensures r.None? <==> forall j :: 0 <= j < |soldiers| ==> !Hits(soldiers[j], p)
  {
    if soldiers == [] then None
    else if Hits(soldiers[0], p) then Some(0)
    else match FindIndex(soldiers[1..], p)
      case None => None
      case Some(i) => Some(i + 1)
  }

  /** `prompt` answered with a non-empty text (not cancelled). */
  predicate Given(reply: Option<string>)
  {
    reply.Some? && reply.value != ""
  }

  /**
   * The record `addSoldierInfo` builds: an unparsable health becomes 100, the
   * health is clamped, the id upper-cased and the status follows the rule.
   */
  function Recruit(name: string, id: string, parsed: JsNum): (s: Soldier)
    ensures s.id == Upper(id) && s.name == name && s.lastUpdate == "Just added"
    ensures s.health.Num? && 0 <= s.health.n <= 100
    ensures parsed.NaN? ==> s.health == Num(100)
    ensures parsed.Num? && 0 <= parsed.n <= 100 ==> s.health == parsed
    ensures Below(parsed, 0) ==> s.health == Num(0)
    ensures Above(parsed, 100) ==> s.health == Num(100)
    ensures s.status == StatusFor(s.health)
  {
    var health := Clamp(if parsed.NaN? then Num(100) else parsed);
    Soldier(Upper(id), name, health, StatusFor(health), "Just added")
  }

  /** `splice(i, 1)`: exactly the entry at `i` is gone, the others keep their order. */
  function RemoveAt(soldiers: seq<Soldier>, i: nat): (r: seq<Soldier>)
    requires i < |soldiers|
    ensures |r| == |soldiers| - 1
    ensures forall j :: 0 <= j < i ==> r[j] == soldiers[j]
    ensures forall j :: i <= j < |r| ==> r[j] == soldiers[j + 1]
    ensures multiset(r) + multiset{soldiers[i]} == multiset(soldiers)
    ensures Consistent(soldiers) ==> Consistent(r)
  {
    assert soldiers == soldiers[..i] + [soldiers[i]] + soldiers[i + 1..];
    soldiers[..i] + soldiers[i + 1..]
  }

  /** The record after a health update: new health, "Just now" and the rule's status; id and name kept. */
  function Retouched(s: Soldier, h: JsNum): (r: Soldier)
    ensures r.id == s.id && r.name == s.name
    ensures r.health == h && r.status == StatusFor(h) && r.lastUpdate == "Just now"
  {
    s.(health := h, lastUpdate := "Just now", status := StatusFor(h))
  }

  /** The roster after `updateSoldierHealth(_, h, soldierId)`: only the first record whose id contains the prefix changes. */
  function Updated(soldiers: seq<Soldier>, soldierId: string, h: JsNum): (r: seq<Soldier>)
    ensures |r| == |soldiers|
    ensures FindIndex(soldiers, ByIdPrefix(soldierId)).None? ==> r == soldiers
    ensures FindIndex(soldiers, ByIdPrefix(soldierId)).Some? ==>
              var i := FindIndex(soldiers, ByIdPrefix(soldierId)).value;
              r[i] == Retouched(soldiers[i], h) && forall j :: 0 <= j < |r| && j != i ==> r[j] == soldiers[j]
    ensures Consistent(soldiers) ==> Consistent(r)
  {
    match FindIndex(soldiers, ByIdPrefix(soldierId))
    case None => soldiers
    case Some(i) => soldiers[i := Retouched(soldiers[i], h)]
  }

  /** Adding, deleting and updating all keep a roster whose statuses follow the rule. */
  lemma AppendKeepsConsistent(soldiers: seq<Soldier>, name: string, id: string, parsed: JsNum)
    requires Consistent(soldiers)
    ensures Consistent(soldiers + [Recruit(name, id, parsed)])
  {
  }

  class Roster {
    var soldiers: seq<Soldier>

    constructor ()
      ensures soldiers == Sample
    {
      soldiers := Sample;
    }

    /**
     * `addSoldierInfo`: with a name and an id given, append exactly one
     * record at the end; otherwise change nothing. `parsedHealth` is what
     * `parseInt` makes of the third answer (NaN when cancelled).
     */
    method AddSoldierInfo(nameReply: Option<string>, idReply: Option<string>, parsedHealth: JsNum)
      returns (added: Option<Soldier>)
      modifies this
      ensures added.Some? <==> Given(nameReply) && Given(idReply)
      ensures added.Some? ==> added.value == Recruit(nameReply.value, idReply.value, parsedHealth)
      ensures soldiers == old(soldiers) + (if added.Some? then [added.value] else [])
    {
      if !Given(nameReply) || !Given(idReply) {
        return None;
      }
      var health := parsedHealth;
      if health.NaN? {
        health := Num(100);
      }
      health := Clamp(health);
      var status := StatusFor(health);
      var recruit := Soldier(Upper(idReply.value), nameReply.value, health, status, "Just added");
      soldiers := soldiers + [recruit];
      added := Some(recruit);
    }

    /**
     * `deleteSoldierInfo`: with a query given, a soldier found and the
     * deletion confirmed, remove exactly that first match; otherwise change nothing.
     */
    method DeleteSoldierInfo(query: Option<string>, confirmed: bool) returns (deleted: Option<Soldier>)
      modifies this
      ensures deleted.Some? <==>
                Given(query) && FindIndex(old(soldiers), ByIdOrName(query.value)).Some? && confirmed
      ensures deleted.Some? ==>
                var i := FindIndex(old(soldiers), ByIdOrName(query.value)).value;
                deleted.value == old(soldiers)[i] && soldiers == RemoveAt(old(soldiers), i)
      ensures deleted.None? ==> soldiers == old(soldiers)
    {
      if !Given(query) {
        return None;
      }
      var index := FindIndex(soldiers, ByIdOrName(query.value));
      if index.None? || !confirmed {
        return None;
      }
      deleted := Some(soldiers[index.value]);
      soldiers := RemoveAt(soldiers, index.value);
    }

    /** `updateSoldierHealth`: update the record in place and return the bar, indicator and notification it shows. */
    method UpdateSoldierHealth(soldierId: string, newHealth: JsNum) returns (view: HealthView)
      modifies this
      ensures soldiers == Updated(old(soldiers), soldierId, newHealth)
      ensures view == ViewOf(newHealth)
    {
      view := ViewOf(newHealth);
      var index := FindIndex(soldiers, ByIdPrefix(soldierId));
      if index.Some? {
        var i := index.value;
        soldiers := soldiers[i := soldiers[i].(health := newHealth, lastUpdate := "Just now", status := StatusFor(newHealth))];
      }
    }

    /** `adjustHealth`: clamp an accepted answer and update; a cancelled or non-numeric answer changes nothing. */
    method AdjustHealth(soldierId: string, reply: HealthReply) returns (view: Option<HealthView>)
      modifies this
      ensures AdjustedHealth(reply).None? ==> soldiers == old(soldiers) && view.None?
      ensures AdjustedHealth(reply).Some? ==>
                var h := AdjustedHealth(reply).value;
                soldiers == Updated(old(soldiers), soldierId, h) && view == Some(ViewOf(h))
    {
      if !reply.Numeric? {
        return None;
      }
      var shown := UpdateSoldierHealth(soldierId, Clamp(reply.parsed));
      view := Some(shown);
    }
  }
}

/** The data-quality scorer as the pipeline runs it: on the transformed lists,
    each record turned back into the dict the transformer produced. */
module TransformedQuality {
  import opened Common
  import opened IsoTime
  import opened Values
  import opened DataQuality
  import opened TransformedRecords

  function TransactionRecords(ts: seq<TransactionRecord>): (rs: seq<Record>)
    ensures |rs| == |ts|
    ensures forall i :: 0 <= i < |ts| ==> rs[i] == TransactionAsRecord(ts[i])
  {
    seq(|ts|, i requires 0 <= i < |ts| => TransactionAsRecord(ts[i]))
  }

  function UserRecords(us: seq<UserRecord>): (rs: seq<Record>)
    ensures |rs| == |us|
    ensures forall i :: 0 <= i < |us| ==> rs[i] == UserAsRecord(us[i])
  {
    seq(|us|, i requires 0 <= i < |us| => UserAsRecord(us[i]))
  }

  function ProductRecords(ps: seq<ProductRecord>): (rs: seq<Record>)
    ensures |rs| == |ps|
    ensures forall i :: 0 <= i < |ps| ==> rs[i] == ProductAsRecord(ps[i])
  {
    seq(|ps|, i requires 0 <= i < |ps| => ProductAsRecord(ps[i]))
  }

  /** A transformed transaction keeps its stamp under `transaction_timestamp`, so
      the `timestamp` field is missing from every record. */
  lemma NoTimestampField(ts: seq<TransactionRecord>)
    ensures forall i :: 0 <= i < |ts| ==> Lookup(TransactionRecords(ts)[i], "timestamp").None?
  {
    forall i | 0 <= i < |ts| ensures Lookup(TransactionRecords(ts)[i], "timestamp").None? {
      TransactionAsRecordFields(ts[i]);
    }
  }

  /** Completeness of transformed transactions never exceeds 7/8: the
      `timestamp` field scores 0. */
  lemma TransformedCompletenessAtMost(ts: seq<TransactionRecord>)
    ensures TransactionCompleteness(TransactionRecords(ts)).overallScore <= 7.0 / 8.0
  {
    var rs := TransactionRecords(ts);
    var scores := FieldScoresOf(rs, RequiredFields);
    TimestampScoreZero(ts);
    FieldScoresInUnit(rs, RequiredFields);
    SumScoresWithZero(scores, 5);
    CompletenessFromSum(rs);
  }

  /** The `timestamp` score of transformed transactions is 0. */
  lemma TimestampScoreZero(ts: seq<TransactionRecord>)
    ensures FieldScoresOf(TransactionRecords(ts), RequiredFields)[5].1 == 0.0
  {
    NoTimestampPresent(ts);
    assert RequiredFields[5] == "timestamp";
  }

  lemma NoTimestampPresent(ts: seq<TransactionRecord>)
    ensures PresentCount(TransactionRecords(ts), "timestamp") == 0
  {
    var rs := TransactionRecords(ts);
    NoTimestampField(ts);
    forall i | 0 <= i < |rs| ensures !Present(Get(rs[i], "timestamp")) {
    }
    PresentCountExtremes(rs, "timestamp");
  }

  /** Every field score is a share. */
  lemma FieldScoresInUnit(rs: seq<Record>, fields: seq<string>)
    ensures forall i :: 0 <= i < |fields| ==> 0.0 <= FieldScoresOf(rs, fields)[i].1 <= 1.0
  {
    var scores := FieldScoresOf(rs, fields);
    forall i | 0 <= i < |fields| ensures 0.0 <= scores[i].1 <= 1.0 {
      assert scores[i] == (fields[i], Ratio(PresentCount(rs, fields[i]), |rs|));
    }
  }

  /** The overall completeness is the mean of the eight field scores. */
  lemma CompletenessFromSum(rs: seq<Record>)
    requires SumScores(FieldScoresOf(rs, RequiredFields)) <= 7.0
    ensures TransactionCompleteness(rs).overallScore <= 7.0 / 8.0
  {
  }

  /** Timeliness of transformed transactions is 0 whatever the clock: the missing
      stamp reads as `''`, which does not parse. */
  lemma TransformedTimelinessZero(ts: seq<TransactionRecord>, now: DateTime, slaHours: int)
    requires ValidDateTime(now)
    ensures DataTimeliness(TransactionRecords(ts), now, slaHours).Ok?
    ensures DataTimeliness(TransactionRecords(ts), now, slaHours).value.overallScore == 0.0
  {
    var rs := TransactionRecords(ts);
    var cutoff := Cutoff(now, slaHours);
    TransformedNeverTimely(ts, cutoff);
    NoneTimely(rs, cutoff);
    RatioNone(|rs|);
  }

  lemma RatioNone(n: nat)
    ensures Ratio(0, n) == 0.0
  {
  }

  lemma TransformedNeverTimely(ts: seq<TransactionRecord>, cutoff: int)
    ensures forall i :: 0 <= i < |TransactionRecords(ts)| ==> TimelyCheck(TransactionRecords(ts)[i], cutoff) == Ok(false)
  {
    var rs := TransactionRecords(ts);
    NoTimestampField(ts);
    forall i | 0 <= i < |rs| ensures TimelyCheck(rs[i], cutoff) == Ok(false) {
      MissingStampNotTimely(rs[i], cutoff);
    }
  }

  /** Transformed users and products always carry their ids, so the consistency
      check on them never raises. */
  lemma TransformedConsistencyRuns(ts: seq<TransactionRecord>, us: seq<UserRecord>, ps: seq<ProductRecord>)
    ensures DataConsistency(TransactionRecords(ts), UserRecords(us), ProductRecords(ps)).Ok?
  {
    var urs := UserRecords(us);
    var prs := ProductRecords(ps);
    forall i | 0 <= i < |urs| ensures Has(urs[i], "user_id") {
      UserAsRecordId(us[i]);
    }
    forall i | 0 <= i < |prs| ensures Has(prs[i], "product_id") {
      ProductAsRecordFields(ps[i]);
    }
    ConsistencyBounds(TransactionRecords(ts), urs, prs);
  }
}

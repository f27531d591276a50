/**
 * Indexing a downloaded knowledge base by answer text, one entry at a time
 * with Dictionary.Add: an answer text met a second time raises an
 * exception instead of replacing the earlier entry.
 */
module AnswerIndex {
  import opened Wrappers
  import opened QnATypes

  /** Adds the entries in order to `acc`; fails on the first answer text already present. */
  function Fill(acc: map<string, QnAEntry>, entries: seq<QnAEntry>): (r: Result<map<string, QnAEntry>, Error>)
    ensures r.Ok? ==> forall key | key in acc :: key in r.value && r.value[key] == acc[key]
    ensures r.Ok? ==> forall key | key in r.value :: key in acc || r.value[key].answer == key
    ensures r.Err? ==> r.error.DuplicateKey?
    decreases |entries|
  {
    if entries == [] then Ok(acc)
    else if entries[0].answer in acc then Err(DuplicateKey(entries[0].answer))
    else Fill(acc[entries[0].answer := entries[0]], entries[1..])
  }

  /** The index built from an empty dictionary. */
  function Index(entries: seq<QnAEntry>): (r: Result<map<string, QnAEntry>, Error>)
    ensures r.Ok? ==> forall key | key in r.value :: r.value[key].answer == key
    ensures r.Err? ==> r.error.DuplicateKey?
  {
    Fill(map[], entries)
  }

  /** No two entries share an answer text. */
  ghost predicate DistinctAnswers(entries: seq<QnAEntry>) {
    forall i, j | 0 <= i < j < |entries| :: entries[i].answer != entries[j].answer
  }

  /** The answer texts of the entries. */
  ghost function Answers(entries: seq<QnAEntry>): set<string> {
    set i | 0 <= i < |entries| :: entries[i].answer
  }

  /** Entry j's answer text was seen before: it is a key of `acc` or an earlier entry's answer. */
  ghost predicate SeenBefore(acc: map<string, QnAEntry>, entries: seq<QnAEntry>, j: int)
    requires 0 <= j < |entries|
  {
    entries[j].answer in acc || exists i | 0 <= i < j :: entries[i].answer == entries[j].answer
  }

  /** No entry's answer text is already a key of `acc`. */
  ghost predicate NewTo(acc: map<string, QnAEntry>, entries: seq<QnAEntry>) {
    forall i | 0 <= i < |entries| :: entries[i].answer !in acc
  }

  /** Filling succeeds exactly when the answer texts are distinct and new to `acc`. */
  lemma {:induction false} FillSucceedsIff(acc: map<string, QnAEntry>, entries: seq<QnAEntry>)
    ensures Fill(acc, entries).Ok? <==> DistinctAnswers(entries) && NewTo(acc, entries)
    decreases |entries|
  {
    if entries != [] && entries[0].answer !in acc {
      var e, rest := entries[0], entries[1..];
      var acc' := acc[e.answer := e];
      FillSucceedsIff(acc', rest);
      if DistinctAnswers(entries) && NewTo(acc, entries) {
        forall i | 0 <= i < |rest| ensures rest[i].answer !in acc' {
          assert entries[0].answer != entries[i + 1].answer;
        }
        forall i, j | 0 <= i < j < |rest| ensures rest[i].answer != rest[j].answer {
          assert entries[i + 1].answer != entries[j + 1].answer;
        }
      }
      if DistinctAnswers(rest) && NewTo(acc', rest) {
        forall i, j | 0 <= i < j < |entries| ensures entries[i].answer != entries[j].answer {
          if i == 0 {
            assert rest[j - 1].answer !in acc';
          } else {
            assert rest[i - 1].answer != rest[j - 1].answer;
          }
        }
        forall i | 0 <= i < |entries| ensures entries[i].answer !in acc {
          if i > 0 { assert rest[i - 1].answer !in acc'; }
        }
      }
    }
  }

  /** A successful fill extends `acc` with every entry under its answer text, and with nothing else. */
  lemma {:induction false} FillContents(acc: map<string, QnAEntry>, entries: seq<QnAEntry>)
    requires Fill(acc, entries).Ok?
    ensures var m := Fill(acc, entries).value;
      m.Keys == acc.Keys + Answers(entries) &&
      (forall k | k in acc :: m[k] == acc[k]) &&
      (forall i | 0 <= i < |entries| :: m[entries[i].answer] == entries[i])
    decreases |entries|
  {
    if entries == [] {
      assert Answers(entries) == {};
    } else {
      var e, rest := entries[0], entries[1..];
      var acc' := acc[e.answer := e];
      FillContents(acc', rest);
      var m := Fill(acc', rest).value;
      assert Answers(entries) == {e.answer} + Answers(rest) by {
        forall a | a in Answers(entries) ensures a in {e.answer} + Answers(rest) {
          var i :| 0 <= i < |entries| && entries[i].answer == a;
          if i > 0 { assert rest[i - 1].answer == a; }
        }
        forall a | a in Answers(rest) ensures a in Answers(entries) {
          var i :| 0 <= i < |rest| && rest[i].answer == a;
          assert entries[i + 1].answer == a;
        }
        assert entries[0].answer in Answers(entries);
      }
      forall i | 0 <= i < |entries| ensures m[entries[i].answer] == entries[i] {
        if i > 0 { assert entries[i] == rest[i - 1]; }
      }
    }
  }

  /** A failed fill names the answer text of the first entry whose text was seen before. */
  lemma {:induction false} FillNamesFirstRepeat(acc: map<string, QnAEntry>, entries: seq<QnAEntry>)
    requires Fill(acc, entries).Err?
    ensures exists j | 0 <= j < |entries| ::
      SeenBefore(acc, entries, j) &&
      (forall i | 0 <= i < j :: !SeenBefore(acc, entries, i)) &&
      Fill(acc, entries).error == DuplicateKey(entries[j].answer)
    decreases |entries|
  {
    var e, rest := entries[0], entries[1..];
    if e.answer in acc {
      assert SeenBefore(acc, entries, 0);
    } else {
      var acc' := acc[e.answer := e];
      FillNamesFirstRepeat(acc', rest);
      var j' :| 0 <= j' < |rest| && SeenBefore(acc', rest, j') &&
        (forall i | 0 <= i < j' :: !SeenBefore(acc', rest, i)) &&
        Fill(acc', rest).error == DuplicateKey(rest[j'].answer);
      var j := j' + 1;
      assert SeenBefore(acc, entries, j) by {
        if rest[j'].answer == e.answer {
          assert entries[0].answer == entries[j].answer;
        } else if rest[j'].answer !in acc {
          var i' :| 0 <= i' < j' && rest[i'].answer == rest[j'].answer;
          assert entries[i' + 1].answer == entries[j].answer;
        }
      }
      forall i | 0 <= i < j ensures !SeenBefore(acc, entries, i) {
        if i > 0 {
          assert !SeenBefore(acc', rest, i - 1);
          assert forall k | 0 < k < i :: entries[k] == rest[k - 1];
        }
      }
    }
  }

  /**
   * Indexing a download succeeds exactly when its answer texts are
   * distinct; the index's keys are then exactly those texts, each mapped to
   * the entry that carries it.
   */
  lemma IndexDistinct(entries: seq<QnAEntry>)
    ensures Index(entries).Ok? <==> DistinctAnswers(entries)
    ensures Index(entries).Ok? ==>
      Index(entries).value.Keys == Answers(entries) &&
      forall i | 0 <= i < |entries| :: Index(entries).value[entries[i].answer] == entries[i]
  {
    FillSucceedsIff(map[], entries);
    if Index(entries).Ok? {
      FillContents(map[], entries);
    }
  }

  /**
   * When indexing fails, the error names the answer text of the first entry
   * whose text already occurred earlier in the download.
   */
  lemma IndexDuplicate(entries: seq<QnAEntry>)
    requires Index(entries).Err?
    ensures exists i, j | 0 <= i < j < |entries| ::
      entries[i].answer == entries[j].answer &&
      DistinctAnswers(entries[..j]) &&
      Index(entries).error == DuplicateKey(entries[j].answer)
  {
    FillNamesFirstRepeat(map[], entries);
    var j :| 0 <= j < |entries| && SeenBefore(map[], entries, j) &&
      (forall i | 0 <= i < j :: !SeenBefore(map[], entries, i)) &&
      Index(entries).error == DuplicateKey(entries[j].answer);
    var i :| 0 <= i < j && entries[i].answer == entries[j].answer;
    assert DistinctAnswers(entries[..j]) by {
      forall a, b | 0 <= a < b < j ensures entries[a].answer != entries[b].answer {
        assert !SeenBefore(map[], entries, b);
      }
    }
  }
}

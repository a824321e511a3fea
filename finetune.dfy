/** app/api/finetune_bart_large_mnli.py, `load_train_data`: builds the
    training rows from a table of labels and a JSON object of dialogs.
    Each dialog gives two rows, the joined texts of participant "0" and of
    participant "1", labelled `is_bot` and `1 - is_bot`.

    The CSV table and the JSON object come in as values: the label rows in
    file order, and the dialogs as (id, messages) pairs in the object's
    key order. */
module Finetune {
  import opened Wrappers
  import opened Text

  /** One row of the label table. */
  datatype LabelRow = LabelRow(dialogId: string, participantIndex: int, isBot: int)

  /** A `participant_index` value as `json.load` gives it: a string, or
      some other JSON value (a number, say), which never equals "0" or
      "1". */
  datatype JsonIndex = IndexStr(s: string) | IndexOther

  datatype TrainMessage = TrainMessage(text: string, participantIndex: JsonIndex)

  type Dialogs = seq<(string, seq<TrainMessage>)>

  datatype TrainingSet = TrainingSet(texts: seq<string>, labels: seq<int>)

  // ----------------------------------------------------------------- labels

  /** `dict(zip(ids, is_bot))` over the rows with participant index 0: a
      later row for the same dialog overwrites an earlier one. */
  function LabelsDict(rows: seq<LabelRow>): map<string, int>
  {
    if rows == [] then map[]
    else
      var r := rows[|rows| - 1];
      var m := LabelsDict(rows[..|rows| - 1]);
      if r.participantIndex == 0 then m[r.dialogId := r.isBot] else m
  }

  /** A row counts when its participant index is 0. */
  predicate LabelsDialog(r: LabelRow, d: string)
  {
    r.participantIndex == 0 && r.dialogId == d
  }

  /** A dialog has a label exactly when some row of participant 0 names
      it, and the label is the one of the last such row. */
  lemma {:induction false} LabelsDictMeaning(rows: seq<LabelRow>, d: string)
    ensures d in LabelsDict(rows) <==> exists i :: 0 <= i < |rows| && LabelsDialog(rows[i], d)
    ensures forall i :: 0 <= i < |rows| && LabelsDialog(rows[i], d)
                        && (forall j :: i < j < |rows| ==> !LabelsDialog(rows[j], d))
                        ==> d in LabelsDict(rows) && LabelsDict(rows)[d] == rows[i].isBot
  {
    if rows != [] {
      var front := rows[..|rows| - 1];
      LabelsDictMeaning(front, d);
      if exists i :: 0 <= i < |front| && LabelsDialog(front[i], d) {
        var i :| 0 <= i < |front| && LabelsDialog(front[i], d);
        assert LabelsDialog(rows[i], d);
      }
      if exists i :: 0 <= i < |rows| && LabelsDialog(rows[i], d) {
        var i :| 0 <= i < |rows| && LabelsDialog(rows[i], d);
        if i < |front| {
          assert LabelsDialog(front[i], d);
        }
      }
      forall i | 0 <= i < |rows| && LabelsDialog(rows[i], d)
                 && (forall j :: i < j < |rows| ==> !LabelsDialog(rows[j], d))
        ensures d in LabelsDict(rows) && LabelsDict(rows)[d] == rows[i].isBot
      {
        if i < |front| {
          assert LabelsDialog(front[i], d);
          assert forall j :: i < j < |front| ==> front[j] == rows[j];
        }
      }
    }
  }

  /** Rows of participant 1 (or any index but 0) never set a label. */
  lemma OtherParticipantRowsIgnored(rows: seq<LabelRow>, r: LabelRow)
    requires r.participantIndex != 0
    ensures LabelsDict(rows + [r]) == LabelsDict(rows)
  {
    assert (rows + [r])[..|rows|] == rows;
  }

  // ------------------------------------------------------------------ texts

  /** `[m["text"] for m in messages if m["participant_index"] == p]`. */
  function TextsOf(messages: seq<TrainMessage>, p: string): seq<string>
  {
    if messages == [] then []
    else
      var m := messages[|messages| - 1];
      TextsOf(messages[..|messages| - 1], p) + (if m.participantIndex == IndexStr(p) then [m.text] else [])
  }

  /** `" ".join(TextsOf(messages, p))`. */
  function PartText(messages: seq<TrainMessage>, p: string): string
  {
    Join(" ", TextsOf(messages, p))
  }

  /** The joined text of participant `p` is built from exactly the
      messages whose index is the string `p`, in order. */
  lemma {:induction false} TextsOfMeaning(messages: seq<TrainMessage>, p: string)
    ensures |TextsOf(messages, p)| <= |messages|
    ensures forall t :: t in TextsOf(messages, p) <==>
      exists i :: 0 <= i < |messages| && messages[i].participantIndex == IndexStr(p) && messages[i].text == t
  {
    if messages != [] {
      var front := messages[..|messages| - 1];
      TextsOfMeaning(front, p);
      forall t ensures t in TextsOf(messages, p) <==>
        exists i :: 0 <= i < |messages| && messages[i].participantIndex == IndexStr(p) && messages[i].text == t
      {
        if t in TextsOf(front, p) {
          var i :| 0 <= i < |front| && front[i].participantIndex == IndexStr(p) && front[i].text == t;
          assert messages[i] == front[i];
        }
        if exists i :: 0 <= i < |messages| && messages[i].participantIndex == IndexStr(p) && messages[i].text == t {
          var i :| 0 <= i < |messages| && messages[i].participantIndex == IndexStr(p) && messages[i].text == t;
          if i < |front| {
            assert front[i] == messages[i];
          }
        }
      }
    }
  }

  /** A message whose index is not the string `p` (another participant, or
      the number 0 instead of the string "0") leaves `p`'s text alone. */
  lemma OtherIndexIgnored(messages: seq<TrainMessage>, m: TrainMessage, p: string)
    requires m.participantIndex != IndexStr(p)
    ensures PartText(messages + [m], p) == PartText(messages, p)
  {
    assert (messages + [m])[..|messages|] == messages;
    assert TextsOf(messages + [m], p) == TextsOf(messages, p);
  }

  /** A message of participant `p` is appended after one space (or is the
      whole text when it is the first). */
  lemma OwnIndexAppended(messages: seq<TrainMessage>, m: TrainMessage, p: string)
    requires m.participantIndex == IndexStr(p)
    ensures TextsOf(messages, p) == [] ==> PartText(messages + [m], p) == m.text
    ensures TextsOf(messages, p) != [] ==> PartText(messages + [m], p) == PartText(messages, p) + " " + m.text
  {
    assert (messages + [m])[..|messages|] == messages;
    var ts := TextsOf(messages, p);
    assert TextsOf(messages + [m], p) == ts + [m.text];
    assert (ts + [m.text])[..|ts|] == ts;
  }

  // ------------------------------------------------------------------- rows

  /** The rows `load_train_data` builds from the labels `labels` and the
      dialogs `data`, or the first dialog id missing from `labels` (the
      `KeyError`). */
  function TrainingData(labels: map<string, int>, data: Dialogs): (r: Result<TrainingSet, string>)
    ensures r.Ok? ==> |r.value.texts| == |r.value.labels| == 2 * |data|
    ensures r.Err? ==> r.error !in labels && exists k :: 0 <= k < |data| && data[k].0 == r.error
  {
    if data == [] then Ok(TrainingSet([], []))
    else
      match TrainingData(labels, data[..|data| - 1])
      case Err(missing) => Err(missing)
      case Ok(ts) =>
        var (dialogId, messages) := data[|data| - 1];
        if dialogId !in labels then Err(dialogId)
        else
          var label0 := labels[dialogId];
          Ok(TrainingSet(ts.texts + [PartText(messages, "0"), PartText(messages, "1")],
                         ts.labels + [label0, 1 - label0]))
  }

  /** The rows are built exactly when every dialog has a label; otherwise
      the error names the first dialog that has none. */
  lemma {:induction false} TrainingDataOkIff(labels: map<string, int>, data: Dialogs)
    ensures TrainingData(labels, data).Ok? <==> forall k :: 0 <= k < |data| ==> data[k].0 in labels
    ensures TrainingData(labels, data).Err? ==>
      exists k :: 0 <= k < |data| && data[k].0 == TrainingData(labels, data).error && data[k].0 !in labels
                  && forall j :: 0 <= j < k ==> data[j].0 in labels
  {
    if data != [] {
      var front := data[..|data| - 1];
      TrainingDataOkIff(labels, front);
      assert forall k :: 0 <= k < |front| ==> front[k] == data[k];
    }
  }

  /** Each dialog gives two rows: row 2k is participant "0"'s joined text
      labelled `is_bot`, row 2k+1 participant "1"'s labelled `1 - is_bot`,
      in the order of the dialogs. */
  lemma {:induction false} TrainingDataRows(labels: map<string, int>, data: Dialogs)
    requires TrainingData(labels, data).Ok?
    ensures var ts := TrainingData(labels, data).value;
      |ts.texts| == |ts.labels| == 2 * |data|
      && forall k :: 0 <= k < |data| ==>
           data[k].0 in labels
           && ts.texts[2 * k] == PartText(data[k].1, "0")
           && ts.texts[2 * k + 1] == PartText(data[k].1, "1")
           && ts.labels[2 * k] == labels[data[k].0]
           && ts.labels[2 * k + 1] == 1 - labels[data[k].0]
  {
    if data != [] {
      var front := data[..|data| - 1];
      TrainingDataRows(labels, front);
      assert forall k :: 0 <= k < |front| ==> front[k] == data[k];
    }
  }

  /** With 0/1 labels in the table, every dialog gives exactly one row
      labelled 1 and one labelled 0. */
  lemma BinaryLabelsPair(labels: map<string, int>, data: Dialogs)
    requires TrainingData(labels, data).Ok?
    requires forall d :: d in labels ==> labels[d] in {0, 1}
    ensures var ts := TrainingData(labels, data).value;
      |ts.labels| == 2 * |data|
      && forall k :: 0 <= k < |data| ==>
           ts.labels[2 * k] in {0, 1} && ts.labels[2 * k + 1] in {0, 1}
           && ts.labels[2 * k] + ts.labels[2 * k + 1] == 1
  {
    TrainingDataRows(labels, data);
  }

  /** An error, once hit, is what the whole loop reports. */
  lemma {:induction false} ErrorPersists(labels: map<string, int>, data: Dialogs, n: nat)
    requires n <= |data| && TrainingData(labels, data[..n]).Err?
    ensures TrainingData(labels, data) == TrainingData(labels, data[..n])
    decreases |data| - n
  {
    if n < |data| {
      assert data[..n + 1][..n] == data[..n];
      ErrorPersists(labels, data, n + 1);
    } else {
      assert data[..n] == data;
    }
  }

  /** `load_train_data`: the loop over the dialogs, appending two texts and
      two labels per dialog. */
  method LoadTrainData(labelRows: seq<LabelRow>, data: Dialogs) returns (r: Result<TrainingSet, string>)
    ensures r == TrainingData(LabelsDict(labelRows), data)
  {
    var labelsDict := LabelsDict(labelRows);
    var texts: seq<string> := [];
    var labels: seq<int> := [];
    var i := 0;
    while i < |data|
      invariant 0 <= i <= |data|
      invariant TrainingData(labelsDict, data[..i]) == Ok(TrainingSet(texts, labels))
    {
      var (dialogId, messages) := data[i];
      assert data[..i + 1][..i] == data[..i];
      var part0 := PartText(messages, "0");
      var part1 := PartText(messages, "1");
      if dialogId !in labelsDict {
        ErrorPersists(labelsDict, data, i + 1);
        return Err(dialogId);
      }
      var label0 := labelsDict[dialogId];
      var label1 := 1 - label0;
      assert texts + [part0] + [part1] == texts + [part0, part1];
      assert labels + [label0] + [label1] == labels + [label0, label1];
      texts := texts + [part0];
      labels := labels + [label0];
      texts := texts + [part1];
      labels := labels + [label1];
      assert data[..i + 1][i] == data[i];
      assert TrainingData(labelsDict, data[..i + 1]) == Ok(TrainingSet(texts, labels));
      i := i + 1;
    }
    assert data[..i] == data;
    r := Ok(TrainingSet(texts, labels));
  }
}

/**
 * The data preparation of `train_LSTM_network`: the downloaded rows are split at the
 * validation date, and the scaler is fitted on the training part only.
 */
module DeepLearningTraining {
  import opened MarketData
  import opened MinMaxScaling

  /** `data[data['Date'] < validation_date]`: the rows strictly before the validation
      date, in input order. */
  function TrainingRows(data: seq<Row>, validationDate: Date): (r: seq<Row>)
    ensures |r| <= |data|
    ensures forall i :: 0 <= i < |r| ==> r[i].date < validationDate
  {
    if data == [] then []
    else (if data[0].date < validationDate then [data[0]] else [])
         + TrainingRows(data[1..], validationDate)
  }

  /** `data[data['Date'] >= validation_date]`: the rows on or after the validation date,
      in input order. */
  function TestRows(data: seq<Row>, validationDate: Date): (r: seq<Row>)
    ensures |r| <= |data|
    ensures forall i :: 0 <= i < |r| ==> r[i].date >= validationDate
  {
    if data == [] then []
    else (if data[0].date >= validationDate then [data[0]] else [])
         + TestRows(data[1..], validationDate)
  }

  /** Every input row lands in exactly one part: together the parts hold each row as
      often as the input does, no row is in both, and their sizes add up. */
  lemma {:induction false} PartitionIsExact(data: seq<Row>, validationDate: Date)
    ensures multiset(TrainingRows(data, validationDate)) + multiset(TestRows(data, validationDate))
         == multiset(data)
    ensures |TrainingRows(data, validationDate)| + |TestRows(data, validationDate)| == |data|
    ensures forall r :: r in TrainingRows(data, validationDate) ==> r !in TestRows(data, validationDate)
  {
    var train, test := TrainingRows(data, validationDate), TestRows(data, validationDate);
    if data != [] {
      PartitionIsExact(data[1..], validationDate);
      assert data == [data[0]] + data[1..];
      assert multiset(data) == multiset{data[0]} + multiset(data[1..]);
    }
    assert |multiset(train)| + |multiset(test)| == |multiset(data)|;
  }

  /** Both parts are filters that keep input order: splitting a concatenation gives the
      concatenation of the splits. */
  lemma {:induction false} PartitionOfConcat(a: seq<Row>, b: seq<Row>, validationDate: Date)
    ensures TrainingRows(a + b, validationDate) == TrainingRows(a, validationDate) + TrainingRows(b, validationDate)
    ensures TestRows(a + b, validationDate) == TestRows(a, validationDate) + TestRows(b, validationDate)
  {
    if a != [] {
      PartitionOfConcat(a[1..], b, validationDate);
      assert (a + b)[1..] == a[1..] + b;
    } else {
      assert a + b == b;
    }
  }

  /** A history that lies wholly on or after the validation date has no training rows
      and is all test rows. */
  lemma {:induction false} AllOnOrAfter(data: seq<Row>, validationDate: Date)
    requires forall i :: 0 <= i < |data| ==> data[i].date >= validationDate
    ensures TrainingRows(data, validationDate) == []
    ensures TestRows(data, validationDate) == data
  {
    if data != [] {
      AllOnOrAfter(data[1..], validationDate);
    }
  }

  /** For a history in date order the split is a cut: the training rows are a prefix and
      the test rows the remaining suffix, so concatenating them gives the history back. */
  lemma {:induction false} ChronologicalSplit(data: seq<Row>, validationDate: Date)
    requires ChronologicalOrder(data)
    ensures data == TrainingRows(data, validationDate) + TestRows(data, validationDate)
  {
    if data != [] {
      var rest := data[1..];
      assert ChronologicalOrder(rest);
      if data[0].date < validationDate {
        ChronologicalSplit(rest, validationDate);
      } else {
        assert forall i :: 0 <= i < |rest| ==> rest[i].date >= validationDate by {
          assert forall i :: 0 <= i < |rest| ==> data[0].date < data[i + 1].date == rest[i].date;
        }
        AllOnOrAfter(rest, validationDate);
      }
    }
  }

  /** The parameters the scaler learns in `train_LSTM_network`: a fit on the closes of
      the training rows. */
  function TrainingFit(data: seq<Row>, validationDate: Date): Params
    requires TrainingRows(data, validationDate) != []
  {
    Fit(Closes(TrainingRows(data, validationDate)))
  }

  /** Test rows do not influence the fitted parameters: adding rows dated on or after the
      validation date anywhere in the history leaves the fit unchanged. */
  lemma TestRowsDoNotAffectFit(before: seq<Row>, extra: seq<Row>, after: seq<Row>, validationDate: Date)
    requires forall i :: 0 <= i < |extra| ==> extra[i].date >= validationDate
    requires TrainingRows(before + after, validationDate) != []
    ensures TrainingRows(before + extra + after, validationDate) == TrainingRows(before + after, validationDate)
    ensures TrainingFit(before + extra + after, validationDate) == TrainingFit(before + after, validationDate)
  {
    PartitionOfConcat(before + extra, after, validationDate);
    PartitionOfConcat(before, extra, validationDate);
    PartitionOfConcat(before, after, validationDate);
    AllOnOrAfter(extra, validationDate);
  }

  /**
   * Lines 50-57 of `train_LSTM_network`: split the downloaded rows at the validation
   * date, make a fresh `MinMaxScaler(feature_range=(0, 1))` and `fit_transform` the
   * training closes. A history with no training rows makes the fit fail, hence the
   * precondition.
   */
  method TrainLstmNetwork(data: seq<Row>, validationDate: Date)
    returns (minMax: MinMaxScaler, trainScaled: seq<real>)
    requires TrainingRows(data, validationDate) != []
    ensures fresh(minMax) && minMax.fitted
    ensures minMax.Current() == TrainingFit(data, validationDate)
    ensures trainScaled == Transform(TrainingFit(data, validationDate), Closes(TrainingRows(data, validationDate)))
  {
    var trainingData := TrainingRows(data, validationDate);
    var testData := TestRows(data, validationDate);
    minMax := new MinMaxScaler();
    trainScaled := minMax.FitTransform(Closes(trainingData));
  }
}

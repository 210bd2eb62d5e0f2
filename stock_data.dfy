/**
 * `StockData.to_numpy`: turns the training and test closing prices into supervised
 * windows for the network, fitting the scaler it is handed twice along the way.
 */
module StockNumpy {
  import opened MinMaxScaling
  import opened SupervisedWindows

  /** The rows the test windows are cut from: training and test concatenated, keeping the
      last |test| + timeSteps rows. It is the training tail followed by all test rows. */
  function TestContext(training: seq<real>, test: seq<real>, timeSteps: nat): (ctx: seq<real>)
    requires timeSteps <= |training|
    ensures |ctx| == |test| + timeSteps
    ensures ctx == training[|training| - timeSteps..] + test
  {
    var total := training + test;
    total[|total| - |test| - timeSteps..]
  }

  /** The four arrays `to_numpy` returns, each window flattened to a sequence of values. */
  datatype Supervised = Supervised(
    xTrain: seq<seq<real>>, yTrain: seq<real>,
    xTest: seq<seq<real>>, yTest: seq<real>)

  /** The training series, scaled with the fit on the training series. */
  function TrainScaled(training: seq<real>): seq<real>
    requires |training| > 0
  {
    Transform(Fit(training), training)
  }

  /** The parameters of the second fit, on the test context; the scaler keeps these. */
  function ContextFit(training: seq<real>, test: seq<real>, timeSteps: nat): Params
    requires timeSteps < |training| && |test| > 0
  {
    Fit(TestContext(training, test, timeSteps))
  }

  /** The test context, scaled with its own fit. */
  function TestScaled(training: seq<real>, test: seq<real>, timeSteps: nat): seq<real>
    requires timeSteps < |training| && |test| > 0
  {
    Transform(ContextFit(training, test, timeSteps), TestContext(training, test, timeSteps))
  }

  /** What `to_numpy` computes, as a function of its inputs. */
  function Prepare(timeSteps: nat, training: seq<real>, test: seq<real>): Supervised
    requires timeSteps < |training| && |test| > 0
  {
    var trainScaled := TrainScaled(training);
    var testScaled := TestScaled(training, test, timeSteps);
    Supervised(
      Windows(trainScaled, timeSteps), Labels(trainScaled, timeSteps),
      Windows(testScaled, timeSteps), Labels(testScaled, timeSteps))
  }

  /**
   * `to_numpy(time_steps, min_max, training_data, test_data)`. The source fails when
   * there are no training windows (the reshape reads a dimension that is not there) and
   * when there are no test rows, hence the two preconditions.
   */
  method ToNumpy(timeSteps: nat, minMax: MinMaxScaler, trainingData: seq<real>, testData: seq<real>)
    returns (xTrain: seq<seq<real>>, yTrain: seq<real>, xTest: seq<seq<real>>, yTest: seq<real>)
    requires timeSteps < |trainingData|
    requires |testData| > 0
    modifies minMax
    ensures Supervised(xTrain, yTrain, xTest, yTest) == Prepare(timeSteps, trainingData, testData)
    ensures minMax.fitted && minMax.nSamplesSeen == |testData| + timeSteps
    ensures minMax.Current() == ContextFit(trainingData, testData, timeSteps)
  {
    var trainScaled := minMax.FitTransform(trainingData);
    xTrain, yTrain := SlidingWindows(trainScaled, timeSteps);

    var totalData := trainingData + testData;
    var inputs := totalData[|totalData| - |testData| - timeSteps..];
    assert inputs == TestContext(trainingData, testData, timeSteps);
    var testScaled := minMax.FitTransform(inputs);
    xTest, yTest := SlidingWindows(testScaled, timeSteps);
    PrepareTrainingHalf(timeSteps, trainingData, testData);
    PrepareTestHalf(timeSteps, trainingData, testData);
  }

  /** There are |training| - timeSteps training windows; window k is the scaled training
      series at [k, k + timeSteps), and its label is the training row right after the
      window, scaled with the training fit. */
  lemma TrainingWindow(timeSteps: nat, training: seq<real>, test: seq<real>, k: nat)
    requires timeSteps < |training| && |test| > 0
    requires k < |training| - timeSteps
    ensures var r := Prepare(timeSteps, training, test);
      && |r.xTrain| == |r.yTrain| == |training| - timeSteps
      && r.xTrain[k] == TrainScaled(training)[k..k + timeSteps]
      && r.yTrain[k] == Scale(Fit(training), training[k + timeSteps])
  {
    PrepareTrainingHalf(timeSteps, training, test);
    var a := TrainScaled(training);
    assert Labels(a, timeSteps)[k] == a[k + timeSteps];
  }

  /** Consecutive training windows overlap in all but one value: the next window is the
      current one shifted by one with the current label appended. */
  lemma TrainingOverlap(timeSteps: nat, training: seq<real>, test: seq<real>, k: nat)
    requires 0 < timeSteps < |training| && |test| > 0
    requires k + 1 < |training| - timeSteps
    ensures var r := Prepare(timeSteps, training, test);
      r.xTrain[k + 1] == r.xTrain[k][1..] + [r.yTrain[k]]
  {
    StrideOneOverlap(TrainScaled(training), timeSteps, k);
  }

  /** Consecutive test windows overlap the same way. */
  lemma TestOverlap(timeSteps: nat, training: seq<real>, test: seq<real>, k: nat)
    requires 0 < timeSteps < |training|
    requires k + 1 < |test|
    ensures var r := Prepare(timeSteps, training, test);
      r.xTest[k + 1] == r.xTest[k][1..] + [r.yTest[k]]
  {
    StrideOneOverlap(TestScaled(training, test, timeSteps), timeSteps, k);
  }

  /** There is one test window per test row, and the k-th label is the k-th test row
      scaled with the context fit. */
  lemma TestLabels(timeSteps: nat, training: seq<real>, test: seq<real>)
    requires timeSteps < |training| && |test| > 0
    ensures var r := Prepare(timeSteps, training, test);
      && |r.xTest| == |r.yTest| == |test|
      && forall k :: 0 <= k < |test| ==>
           r.yTest[k] == Scale(ContextFit(training, test, timeSteps), test[k])
  {
    PrepareTestHalf(timeSteps, training, test);
    var p := ContextFit(training, test, timeSteps);
    var ctx := TestContext(training, test, timeSteps);
    var b := TestScaled(training, test, timeSteps);
    ScaledContextAt(timeSteps, training, test);
    var y := Labels(b, timeSteps);
    forall k | 0 <= k < |test|
      ensures y[k] == Scale(p, test[k])
    {
      assert y[k] == b[k + timeSteps];
    }
  }

  /** Position timeSteps + k of the scaled context is the k-th test row, scaled. */
  lemma ScaledContextAt(timeSteps: nat, training: seq<real>, test: seq<real>)
    requires timeSteps < |training| && |test| > 0
    ensures |TestScaled(training, test, timeSteps)| == |test| + timeSteps
    ensures forall k :: 0 <= k < |test| ==>
      TestScaled(training, test, timeSteps)[k + timeSteps] == Scale(ContextFit(training, test, timeSteps), test[k])
    ensures forall i :: 0 <= i < timeSteps ==>
      TestScaled(training, test, timeSteps)[i]
        == Scale(ContextFit(training, test, timeSteps), training[|training| - timeSteps + i])
  {
    var ctx := TestContext(training, test, timeSteps);
    assert forall k :: 0 <= k < |test| ==> ctx[k + timeSteps] == test[k];
    assert forall i :: 0 <= i < timeSteps ==> ctx[i] == training[|training| - timeSteps + i];
  }

  /** The first test window is the last timeSteps training rows, scaled with the context
      fit rather than the training fit. */
  lemma FirstTestWindow(timeSteps: nat, training: seq<real>, test: seq<real>)
    requires timeSteps < |training| && |test| > 0
    ensures Prepare(timeSteps, training, test).xTest[0]
         == Transform(ContextFit(training, test, timeSteps), training[|training| - timeSteps..])
  {
    PrepareTestHalf(timeSteps, training, test);
    var x := Prepare(timeSteps, training, test).xTest;
    var p := ContextFit(training, test, timeSteps);
    var ctx := TestContext(training, test, timeSteps);
    var b := TestScaled(training, test, timeSteps);
    var tail := training[|training| - timeSteps..];
    assert b == Transform(p, ctx);
    assert x[0] == b[..timeSteps];
    var w := Transform(p, tail);
    forall i | 0 <= i < timeSteps
      ensures x[0][i] == w[i]
    {
      assert ctx[i] == tail[i];
    }
  }

  /** The training outputs are computed from the training rows alone. */
  lemma TrainingIgnoresTest(timeSteps: nat, training: seq<real>, test1: seq<real>, test2: seq<real>)
    requires timeSteps < |training| && |test1| > 0 && |test2| > 0
    ensures Prepare(timeSteps, training, test1).xTrain == Prepare(timeSteps, training, test2).xTrain
    ensures Prepare(timeSteps, training, test1).yTrain == Prepare(timeSteps, training, test2).yTrain
  {
  }

  /** The test outputs and the scaler's final parameters depend on the training rows only
      through the last timeSteps of them: earlier training rows never affect them. */
  lemma TestDependsOnlyOnTail(timeSteps: nat, training1: seq<real>, training2: seq<real>, test: seq<real>)
    requires timeSteps < |training1| && timeSteps < |training2| && |test| > 0
    requires training1[|training1| - timeSteps..] == training2[|training2| - timeSteps..]
    ensures ContextFit(training1, test, timeSteps) == ContextFit(training2, test, timeSteps)
    ensures Prepare(timeSteps, training1, test).xTest == Prepare(timeSteps, training2, test).xTest
    ensures Prepare(timeSteps, training1, test).yTest == Prepare(timeSteps, training2, test).yTest
  {
    assert TestContext(training1, test, timeSteps) == TestContext(training2, test, timeSteps);
  }

  /** Windows and labels cut from a series with values in [0, 1] hold values in [0, 1]. */
  lemma WindowsInUnitInterval(s: seq<real>, timeSteps: nat)
    requires forall j :: 0 <= j < |s| ==> 0.0 <= s[j] <= 1.0
    ensures forall k :: 0 <= k < |Labels(s, timeSteps)| ==> 0.0 <= Labels(s, timeSteps)[k] <= 1.0
    ensures forall k, i :: 0 <= k < |Windows(s, timeSteps)| && 0 <= i < |Windows(s, timeSteps)[k]|
              ==> 0.0 <= Windows(s, timeSteps)[k][i] <= 1.0
  {
    var w := Windows(s, timeSteps);
    forall k, i | 0 <= k < |w| && 0 <= i < |w[k]|
      ensures 0.0 <= w[k][i] <= 1.0
    {
      assert w[k][i] == s[k + i];
    }
  }

  /** Every value the network sees, in windows and labels, lies in [0, 1]. */
  lemma OutputsInUnitInterval(timeSteps: nat, training: seq<real>, test: seq<real>)
    requires timeSteps < |training| && |test| > 0
    ensures var r := Prepare(timeSteps, training, test);
      && (forall k :: 0 <= k < |r.yTrain| ==> 0.0 <= r.yTrain[k] <= 1.0)
      && (forall k :: 0 <= k < |r.yTest| ==> 0.0 <= r.yTest[k] <= 1.0)
      && (forall k, i :: 0 <= k < |r.xTrain| && 0 <= i < |r.xTrain[k]| ==> 0.0 <= r.xTrain[k][i] <= 1.0)
      && (forall k, i :: 0 <= k < |r.xTest| && 0 <= i < |r.xTest[k]| ==> 0.0 <= r.xTest[k][i] <= 1.0)
  {
    FitTransformInUnitInterval(training);
    WindowsInUnitInterval(TrainScaled(training), timeSteps);
    FitTransformInUnitInterval(TestContext(training, test, timeSteps));
    WindowsInUnitInterval(TestScaled(training, test, timeSteps), timeSteps);
  }

  /** The training closes 10, 11, ..., 16 of the worked example. */
  predicate TenToSixteen(training: seq<real>)
  {
    |training| == 7 && forall i :: 0 <= i < 7 ==> training[i] == 10.0 + i as real
  }

  /** Prepare's training half is the windows and labels of the scaled training series. */
  lemma PrepareTrainingHalf(timeSteps: nat, training: seq<real>, test: seq<real>)
    requires timeSteps < |training| && |test| > 0
    ensures Prepare(timeSteps, training, test).xTrain == Windows(TrainScaled(training), timeSteps)
    ensures Prepare(timeSteps, training, test).yTrain == Labels(TrainScaled(training), timeSteps)
  {
  }

  /** Prepare's test half is the windows and labels of the scaled test context. */
  lemma PrepareTestHalf(timeSteps: nat, training: seq<real>, test: seq<real>)
    requires timeSteps < |training| && |test| > 0
    ensures Prepare(timeSteps, training, test).xTest
         == Windows(TestScaled(training, test, timeSteps), timeSteps)
    ensures Prepare(timeSteps, training, test).yTest
         == Labels(TestScaled(training, test, timeSteps), timeSteps)
  {
  }

  lemma SevenDayTrainingScaled(training: seq<real>)
    requires TenToSixteen(training)
    ensures |TrainScaled(training)| == 7
    ensures TrainScaled(training)[..4] == [0.0, 1.0 / 6.0, 1.0 / 3.0, 0.5]
  {
    FitOfBoundedColumn(training, 0, 6);
    var a := TrainScaled(training);
    forall i | 0 <= i < 4
      ensures a[i] == i as real / 6.0
    {
      assert a[i] == Scale(Params(10.0, 16.0), training[i]);
    }
  }

  lemma SevenDayContext(training: seq<real>, test: seq<real>)
    requires TenToSixteen(training) && test == [17.0]
    ensures |TestContext(training, test, 3)| == 4
    ensures forall i :: 0 <= i < 4 ==> TestContext(training, test, 3)[i] == 14.0 + i as real
    ensures ContextFit(training, test, 3) == Params(14.0, 17.0)
  {
    var ctx := TestContext(training, test, 3);
    assert forall i :: 0 <= i < 4 ==> ctx[i] == 14.0 + i as real;
    FitOfBoundedColumn(ctx, 0, 3);
  }

  lemma SevenDayTestScaled(training: seq<real>, test: seq<real>)
    requires TenToSixteen(training) && test == [17.0]
    ensures TestScaled(training, test, 3) == [0.0, 1.0 / 3.0, 2.0 / 3.0, 1.0]
  {
    SevenDayContext(training, test);
    var ctx := TestContext(training, test, 3);
    var b := TestScaled(training, test, 3);
    forall i | 0 <= i < 4
      ensures b[i] == i as real / 3.0
    {
      assert b[i] == Scale(Params(14.0, 17.0), ctx[i]);
    }
  }

  /** Training closes 10..16 with three time steps: four training windows, the first
      holding the three lowest prices scaled to 0, 1/6 and 1/3 and labelled with 13
      scaled to 1/2. */
  lemma SevenDayTraining(training: seq<real>, test: seq<real>)
    requires TenToSixteen(training) && |test| > 0
    ensures var r := Prepare(3, training, test);
      && |r.xTrain| == 4
      && r.xTrain[0] == [0.0, 1.0 / 6.0, 1.0 / 3.0]
      && r.yTrain[0] == 0.5
  {
    SevenDayTrainingScaled(training);
    PrepareTrainingHalf(3, training, test);
    var a := TrainScaled(training);
    var w, y := Windows(a, 3), Labels(a, 3);
    assert |w| == 4;
    assert w[0] == [0.0, 1.0 / 6.0, 1.0 / 3.0] by {
      assert w[0] == a[..3] == a[..4][..3];
    }
    assert y[0] == 0.5 by {
      assert y[0] == a[3] == a[..4][3];
    }
  }

  /** The same training closes with one test close 17: the context 14..17 is refit to
      [14, 17], giving one test window [0, 1/3, 2/3] labelled 1. */
  lemma SevenDayTest(training: seq<real>, test: seq<real>)
    requires TenToSixteen(training) && test == [17.0]
    ensures var r := Prepare(3, training, test);
      && r.xTest == [[0.0, 1.0 / 3.0, 2.0 / 3.0]]
      && r.yTest == [1.0]
  {
    SevenDayTestScaled(training, test);
    PrepareTestHalf(3, training, test);
    var b := TestScaled(training, test, 3);
    var w, y := Windows(b, 3), Labels(b, 3);
    assert |w| == 1 && |y| == 1;
    assert w[0] == b[..3] == [0.0, 1.0 / 3.0, 2.0 / 3.0];
    assert y[0] == b[3] == 1.0;
    assert w == [w[0]] && y == [y[0]];
  }

  /** After the call the scaler holds the context fit, not the training fit: for training
      closes 0, 1, 2, one test close 10 and one time step, the first fit learns [0, 2] and
      the second, which the scaler keeps, learns [2, 10]. */
  lemma SecondFitReplacesFirst()
    ensures Fit([0.0, 1.0, 2.0]) == Params(0.0, 2.0)
    ensures ContextFit([0.0, 1.0, 2.0], [10.0], 1) == Params(2.0, 10.0)
  {
    var training := [0.0, 1.0, 2.0];
    assert training[0] <= Min(training) && Max(training) <= training[2];
    var ctx := TestContext(training, [10.0], 1);
    assert ctx == [2.0, 10.0];
    assert ctx[0] <= Min(ctx) && Max(ctx) <= ctx[1];
  }
}

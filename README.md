# Stock prediction with deep neural learning: data preparation model

This project is a Dafny model of the data-preparation core of
`stock-prediction-deep-neural-learning`, a Python tool that trains an LSTM network on a
stock's daily closing prices. The model covers four pieces of that tool:

- **`StockData.to_numpy`** (`stock_data.dfy`, built on `scaler.dfy` and `windows.dfy`).
  The training closes are scaled with a min-max fit, then cut into stride-1 look-back
  windows of `time_steps` values, each labelled with the value after it. The test windows
  are cut from the last `time_steps` training closes followed by all test closes. The same
  scaler is fitted a second time on that test context, and the scaler keeps that second
  fit.
- **The split in `train_LSTM_network`** (`deep_learning.dfy`, over the rows of
  `series.dfy`). Rows dated before the validation date are training rows, and the others
  are test rows. A fresh scaler is fitted on the training closes only.
- **`StockPrediction`** (`stock_prediction.dfy`). This is the settings object with its
  four fields, getters and setters.
- **`ReadmeGenerator`** (`readme_generator.dfy`). It normalises the short name: the name
  is stripped, its dots are deleted and its spaces become `%20`. `write` then emits five
  image-link lines.

The scikit-learn `MinMaxScaler(feature_range=(0, 1))` is modelled as a class. Its
arithmetic is exact over `real`: a value `x` maps to `(x - min) / (max - min)`, and the
divisor is 1 when `max == min`, as the scaler does for a zero range. The general lemmas
hold for all inputs; the example lemmas (`SevenDay*`, `SecondFitReplacesFirst` and the
`*Example` lemmas of the README generator) pin down concrete values. The loops of
`to_numpy` are methods with loop invariants, proved against the recursive functions
`Windows` and `Labels`. The properties themselves are lemmas about those functions.

Three behaviours of the code shape the model:

- `to_numpy` fits the scaler it is handed twice. The second fit, on the test context at
  `stock_prediction_numpy.py:42`, replaces the training fit, so the test windows are
  scaled with the test context's own minimum and maximum. `StockNumpy.ToNumpy` ends with
  the scaler holding the context fit, and `StockNumpy.SecondFitReplacesFirst` shows an
  input where that fit differs from the training fit.
- `to_numpy` fails rather than returning empty arrays when a part yields no windows. With
  no more training rows than `time_steps`, `x_train` is empty and the `np.reshape` at line
  38 reads `x_train.shape[1]`, which an empty array does not have. With no test rows and
  `time_steps > 0`, the context is the training tail alone, so the fit at line 42 succeeds,
  but `x_test` is empty and the `np.reshape` at line 52 fails the same way; with
  `time_steps == 0` the context is empty and the fit at line 42 already fails. `ToNumpy`
  therefore requires `timeSteps < |trainingData|` and a non-empty `testData`.
- The windows and labels hold scaled values. For training closes 10 to 16 and three time
  steps, `StockNumpy.SevenDayTraining` states the first window `[0, 1/6, 1/3]` and its
  label `1/2`, not the raw closes `[10, 11, 12]` and `13`.

## Model

| member | source | states |
|---|---|---|
| `MarketData.Closes` | stock_prediction_deep_learning.py:46 | The `Close` column has one value per row, in row order, and value i is row i's close. |
| `MinMaxScaling.Min` | stock_prediction_numpy.py:27 | The learnt minimum is one of the column's values and no value is below it. |
| `MinMaxScaling.Max` | stock_prediction_numpy.py:27 | The learnt maximum is one of the column's values and no value is above it. |
| `MinMaxScaling.Fit` | stock_prediction_numpy.py:27 | A fit on a non-empty column yields a minimum no greater than its maximum. |
| `MinMaxScaling.FitOfBoundedColumn` | stock_prediction_numpy.py:27 | A column lying between two of its own values is fitted to exactly those two values. |
| `MinMaxScaling.Transform` | stock_prediction_numpy.py:27 | Transforming keeps the column's length, and every value is mapped to (x - min) / range. |
| `MinMaxScaling.ScaleInUnitInterval` | stock_prediction_deep_learning.py:56 | A value inside the fitted interval lands in the feature range [0, 1]. |
| `MinMaxScaling.ScaleMonotonic` | stock_prediction_deep_learning.py:56 | Scaling keeps the order of any two values. |
| `MinMaxScaling.FitTransformInUnitInterval` | stock_prediction_deep_learning.py:56-57 | After fit-then-transform, every value of the column lies in [0, 1]. |
| `MinMaxScaling.ScaleEndpoints` | stock_prediction_deep_learning.py:56 | For a non-empty range, the fitted minimum maps to 0 and the fitted maximum to 1. |
| `MinMaxScaling.MinMaxScaler.constructor` | stock_prediction_deep_learning.py:56 | A new scaler is unfitted and has seen no samples. |
| `MinMaxScaling.MinMaxScaler.FitTransform` | stock_prediction_numpy.py:42 | The scaler replaces any earlier fit with the column's min and max, records the sample count, and returns the column scaled with the new fit. |
| `SupervisedWindows.Windows` | stock_prediction_numpy.py:33-34 | There are max(n - timeSteps, 0) windows, and window k is the slice [k, k + timeSteps). |
| `SupervisedWindows.Labels` | stock_prediction_numpy.py:33-35 | There is one label per window, and label k is element k + timeSteps. |
| `SupervisedWindows.LabelFollowsWindow` | stock_prediction_numpy.py:33-35 | Every window has length timeSteps, and the window followed by its label is the slice [k, k + timeSteps + 1). |
| `SupervisedWindows.StrideOneOverlap` | stock_prediction_numpy.py:33-35 | Windows advance by one: the next window is this one without its first value, followed by this window's label. |
| `SupervisedWindows.SlidingWindows` | stock_prediction_numpy.py:31-35 | The append loop yields exactly the windows and labels defined above, on every input, including series too short for a window. |
| `StockNumpy.TestContext` | stock_prediction_numpy.py:40-41 | The tail cut from the concatenated data is the last timeSteps training values followed by all test values. |
| `StockNumpy.ToNumpy` | stock_prediction_numpy.py:26-53 | The four arrays equal the training windows and labels under the training fit and the test windows and labels under the context fit; the scaler ends up holding the context fit, with the test length plus timeSteps samples seen. |
| `StockNumpy.TrainingWindow` | stock_prediction_numpy.py:27-38 | There are (training length - timeSteps) training windows; window k is scaled training values k to k + timeSteps - 1, and its label is training value k + timeSteps scaled with the training fit. |
| `StockNumpy.TrainingOverlap` | stock_prediction_numpy.py:33-35 | Consecutive training windows overlap in all but one value, and the value shifted in is the previous label. |
| `StockNumpy.TestOverlap` | stock_prediction_numpy.py:47-49 | Consecutive test windows overlap the same way. |
| `StockNumpy.ScaledContextAt` | stock_prediction_numpy.py:40-42 | The scaled context holds the training tail and then the test values, each scaled with the context fit. |
| `StockNumpy.TestLabels` | stock_prediction_numpy.py:40-49 | There is exactly one test window per test row, and test label k is test row k scaled with the context fit. |
| `StockNumpy.FirstTestWindow` | stock_prediction_numpy.py:40-48 | The first test window is the last timeSteps training values, scaled with the context fit and not the training fit. |
| `StockNumpy.TrainingIgnoresTest` | stock_prediction_numpy.py:27-38 | The training arrays do not depend on the test data. |
| `StockNumpy.TestDependsOnlyOnTail` | stock_prediction_numpy.py:40-49 | Two training series with the same last timeSteps values give the same context fit, test windows and test labels. |
| `StockNumpy.WindowsInUnitInterval` | stock_prediction_numpy.py:33-35 | Windows and labels cut from a series in [0, 1] hold only values in [0, 1]. |
| `StockNumpy.OutputsInUnitInterval` | stock_prediction_numpy.py:26-53 | Every value in all four arrays lies in [0, 1]. |
| `StockNumpy.SevenDayTrainingScaled` | stock_prediction_numpy.py:27 | Training closes 10 to 16 scale to 0, 1/6, 1/3 and 1/2 at their first four positions. |
| `StockNumpy.SevenDayContext` | stock_prediction_numpy.py:40-42 | With closes 10 to 16, test close 17 and three time steps, the context is 14 to 17 and is fitted to [14, 17]. |
| `StockNumpy.SevenDayTestScaled` | stock_prediction_numpy.py:40-42 | That context scales to 0, 1/3, 2/3 and 1. |
| `StockNumpy.SevenDayTraining` | stock_prediction_numpy.py:26-38 | Closes 10 to 16 with three time steps give four training windows; the first is [0, 1/6, 1/3] with label 1/2. |
| `StockNumpy.SevenDayTest` | stock_prediction_numpy.py:40-53 | Adding test close 17 gives the single test window [0, 1/3, 2/3] with label 1. |
| `StockNumpy.SecondFitReplacesFirst` | stock_prediction_numpy.py:27-42 | For training 0, 1, 2, test 10 and one time step, the training fit is [0, 2] but the scaler keeps the context fit [2, 10]. |
| `DeepLearningTraining.TrainingRows` | stock_prediction_deep_learning.py:50 | The training part is no longer than the input, and every row in it is dated before the validation date. |
| `DeepLearningTraining.TestRows` | stock_prediction_deep_learning.py:51 | The test part is no longer than the input, and every row in it is dated on or after the validation date. |
| `DeepLearningTraining.PartitionIsExact` | stock_prediction_deep_learning.py:50-51 | Every row lands in exactly one part: the two parts together hold each row as often as the input does, and no row is in both. |
| `DeepLearningTraining.PartitionOfConcat` | stock_prediction_deep_learning.py:50-51 | Both parts keep input order: splitting a concatenation gives the concatenation of the splits. |
| `DeepLearningTraining.AllOnOrAfter` | stock_prediction_deep_learning.py:50-51 | A history dated wholly on or after the validation date is all test rows and has no training rows. |
| `DeepLearningTraining.ChronologicalSplit` | stock_prediction_deep_learning.py:50-51 | For a history in date order, the training rows are a prefix, the test rows are the rest, and together they give the history back. |
| `DeepLearningTraining.TestRowsDoNotAffectFit` | stock_prediction_deep_learning.py:50-57 | Inserting rows dated on or after the validation date anywhere in the history changes neither the training rows nor the fitted parameters. |
| `DeepLearningTraining.TrainLstmNetwork` | stock_prediction_deep_learning.py:50-57 | The fresh scaler ends fitted to the training closes only, and the returned series is those closes scaled with that fit. |
| `StockPredictionSettings.StockPrediction.constructor` | stock_prediction_class.py:18-22 | The four fields hold the four arguments. |
| `StockPredictionSettings.StockPrediction.GetTicker` | stock_prediction_class.py:24-25 | Returns the stored ticker and changes nothing. |
| `StockPredictionSettings.StockPrediction.SetTicker` | stock_prediction_class.py:27-28 | Stores the ticker and leaves the other three fields unchanged. |
| `StockPredictionSettings.StockPrediction.GetStartDate` | stock_prediction_class.py:30-31 | Returns the stored start date and changes nothing. |
| `StockPredictionSettings.StockPrediction.SetStartDate` | stock_prediction_class.py:33-34 | Stores the start date and leaves the other three fields unchanged. |
| `StockPredictionSettings.StockPrediction.GetValidationDate` | stock_prediction_class.py:36-37 | Returns the stored validation date and changes nothing. |
| `StockPredictionSettings.StockPrediction.SetValidationDate` | stock_prediction_class.py:39-40 | Stores the validation date and leaves the other three fields unchanged. |
| `StockPredictionSettings.StockPrediction.GetProjectFolder` | stock_prediction_class.py:42-43 | Returns the stored project folder and changes nothing. |
| `StockPredictionSettings.StockPrediction.SetProjectFolder` | stock_prediction_class.py:45-46 | Stores the project folder and leaves the other three fields unchanged. |
| `StockPredictionSettings.SetThenGet` | stock_prediction_class.py:17-46 | Each getter returns what its setter just stored, and later setters of other fields do not disturb it. |
| `ReadmeGeneration.LeadingWhitespace` | stock_prediction_readme_generator.py:22 | Counts the whitespace the name starts with: all counted characters are whitespace, and the next one is not. |
| `ReadmeGeneration.TrailingWhitespace` | stock_prediction_readme_generator.py:22 | Counts the whitespace the name ends with, in the same maximal way. |
| `ReadmeGeneration.Strip` | stock_prediction_readme_generator.py:22 | The result is a slice of the input with only whitespace outside it, and it neither starts nor ends with whitespace. |
| `ReadmeGeneration.RemoveDots` | stock_prediction_readme_generator.py:22 | The result holds no dot. |
| `ReadmeGeneration.RemoveDotsKeepsOtherCharacters` | stock_prediction_readme_generator.py:22 | Dot deletion keeps every other character, as often as it occurs. |
| `ReadmeGeneration.RemoveDotsWithoutDots` | stock_prediction_readme_generator.py:22 | A string without dots is left unchanged. |
| `ReadmeGeneration.RemoveDotsOfConcat` | stock_prediction_readme_generator.py:22 | Dot deletion works character by character: it distributes over concatenation. |
| `ReadmeGeneration.EncodeSpaces` | stock_prediction_readme_generator.py:22 | The result holds no space. |
| `ReadmeGeneration.EncodeSpacesAddsOnlyPercentTwoZero` | stock_prediction_readme_generator.py:22 | Encoding adds no character other than those of `%20`. |
| `ReadmeGeneration.EncodeSpacesLength` | stock_prediction_readme_generator.py:22 | Encoding lengthens the string by two characters per space. |
| `ReadmeGeneration.EncodeSpacesWithoutSpaces` | stock_prediction_readme_generator.py:22 | A string without spaces is left unchanged. |
| `ReadmeGeneration.EncodeSpacesOfConcat` | stock_prediction_readme_generator.py:22 | Encoding distributes over concatenation. |
| `ReadmeGeneration.NormaliseShortName` | stock_prediction_readme_generator.py:22 | The normalised short name holds neither a dot nor a space. |
| `ReadmeGeneration.StripBeforeDotRemoval` | stock_prediction_readme_generator.py:22 | Stripping happens before dot deletion: `". a"` becomes `"%20a"`, not `"a"`. |
| `ReadmeGeneration.StripExample` | stock_prediction_readme_generator.py:22 | `" A B. "` strips to `"A B."`. |
| `ReadmeGeneration.RemoveDotsExample` | stock_prediction_readme_generator.py:22 | `"A B."` loses its dot. |
| `ReadmeGeneration.EncodeSpacesExample` | stock_prediction_readme_generator.py:22 | `"A B"` becomes `"A%20B"`. |
| `ReadmeGeneration.OuterTrimmedInnerEncoded` | stock_prediction_readme_generator.py:22 | `" A B. "` normalises to `"A%20B"`: outer spaces trimmed, dot deleted, inner space encoded. |
| `ReadmeGeneration.NewReadmeGenerator` | stock_prediction_readme_generator.py:19-22 | The generator holds the fixed repository base URL, the project folder as given, and the short name after stripping, dot deletion and space encoding, which holds no dot and no space. |
| `ReadmeGeneration.Write` | stock_prediction_readme_generator.py:24-30 | `write` emits exactly five lines. |
| `ReadmeGeneration.LinkedFile` | stock_prediction_readme_generator.py:26-30 | When a line parses as an image link into the project folder, it is exactly the link prefix, the file name and `)` with a newline. |
| `ReadmeGeneration.LinkedFileOfLink` | stock_prediction_readme_generator.py:26-30 | Parsing a built link line gives back the file it links to. |
| `ReadmeGeneration.WriteLinksImages` | stock_prediction_readme_generator.py:26-30 | In order, the five lines link the short name's price, histogram and prediction charts, then `MSE.png` and `loss.png`, all under the base URL and project folder. |

## Left out

- Downloading prices (`yf.download`, `yf.Ticker(...).info`) is not modelled. The rows are a parameter of `TrainLstmNetwork`, and dates are day numbers whose order is all that matters.
- The diagnostics printed by `__data_verification` and `data_verification` (mean, max, min, standard deviation) are not modelled, because they only print.
- `plot_histogram_data_split` and all plotting are not modelled, because they only draw charts.
- `set_index('Date')`, `reset_index` and pandas indexing are not modelled. The closes are kept in row order, and the index does not affect any value computed.
- NumPy's `reshape` to `(n, time_steps, 1)` is not modelled. Each window is a sequence of `time_steps` values, the trailing unit axis is dropped, and `TrainingWindow` states the window length.
- Floating point is not modelled: the scaler's arithmetic is exact over `real`, so rounding in `(x - min) / (max - min)` is not captured.
- The scaler is modelled for `feature_range=(0, 1)` only, the one value the code uses. Its `transform` without refit, `inverse_transform` and `partial_fit` are not modelled, because the modelled code does not call them.
- `ReadmeGenerator.write` opens `<project_folder>/README.md` and writes to it; `Write` returns the five lines and does not model the file or `os.path.join`.
- `ReadmeGeneration.IsWhitespace` uses the code points Python's `str.isspace` accepts (none lies outside the Basic Multilingual Plane). Python strings can also hold lone surrogates (U+D800 to U+DFFF), which a Dafny `char` cannot; names containing them are not modelled.
- Log returns, first differences, trend residuals, inverse transforms, an iterative forecast loop and a test scaling that reuses the training fit do not occur in the modelled files, so the model has none of them.
- Network training, inference, plotting and the download scripts (`stock_prediction_lstm.py`, `stock_prediction_deep_learning_inference.py`, `stock_prediction_plotter.py`, `stock_prediction_forecasting.py`, the download modules) are not part of this model.
- `DeepLearningTraining.TrainLstmNetwork` models lines 50-51 and 56-57 of `train_LSTM_network`; the download, printing and plotting lines around them are left out for the reasons above.
- `MinMaxScaling.MinMaxScaler.FitTransform`: requires a non-empty column. scikit-learn raises `ValueError` on an empty one; that error path is a precondition here, not a modelled outcome.
- `DeepLearningTraining.TrainLstmNetwork`: requires a non-empty training part. With no rows dated before the validation date, the `fit_transform` at `stock_prediction_deep_learning.py:57` raises `ValueError`; that error path is a precondition here, not a modelled outcome.

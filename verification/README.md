# Gaussian-process playground: a Dafny model of its numeric core

The playground draws functions from a Gaussian process (GP) and lets the user
add observations. Its numeric core is modelled here over exact reals:

- the covariance kernels;
- the covariance matrix and multivariate-normal sampling arithmetic;
- GP prior and posterior assembly;
- the evaluation grid (`linspace`);
- the confidence bands;
- the ensemble-disagreement measures;
- the nearest-grid-point lookup under the guide line;
- the point-list state machine of the store.

Transcendental functions (`Math.exp`, `Math.sin`, `Math.sqrt`, `Math.PI`) are
fields of a `Transcendentals` record passed as a parameter. A member that
needs a fact about them (exp 0 = 1, sin 0 = 0, sqrt is the non-negative
root) takes it as a hypothesis. The singular-value solve of the posterior is
a parameter. The only thing known about it is the shape of its result.

Modules, in dependency order:

- `Numeric`: `Option`, `Abs`, `Pow2`, the left-to-right `Sum`, and `Transcendentals`.
- `Mat`: the part of ml-matrix the program uses. Matrices carry their shape, so a 0 x n matrix keeps its n columns.
- `Kernels`: src/lib/math/kernels.ts.
- `Covariance`: `covMatrix` and `sampleMvn` from src/lib/math/matrix.ts.
- `GaussianProcess`: src/lib/models/gaussianProcess.ts.
- `Utils`: `linspace` from src/lib/math/utils.ts.
- `Disagreement`: src/lib/math/disagreement.ts.
- `ConfidenceBands`: prepareConfidenceData.ts.
- `GuideLine`: the computation in GuideLineComponent.tsx (lines 36-55).
- `Store`: src/lib/store/gaussianProcessStore.ts.

When `v` is absent or has the wrong number of rows, `sampleMvn` returns a
|meanVec| x 1 zero matrix, whatever the number of sample columns requested.
`Covariance.SampleMvn` states this one-column result.

## Model

| member | source | states |
|---|---|---|
| Kernels.SqExpKernel | src/lib/math/kernels.ts:10-16 | The kernel depends on its inputs only through their distance, so it is symmetric. Given exp 0 = 1, k(x, x) is the variance. |
| Kernels.LinearKernel | src/lib/math/kernels.ts:21-25 | Symmetric. k(a, b) minus the bias is variance * a * b, so with either input at 0 the value is the bias. |
| Kernels.PeriodicKernel | src/lib/math/kernels.ts:30-35 | Depends only on the distance, so symmetric. Given exp 0 = 1 and sin 0 = 0, k(x, x) is the variance. |
| Kernels.Matern32Kernel | src/lib/math/kernels.ts:40-45 | Depends only on the distance, so symmetric. Given exp 0 = 1, k(x, x) is the variance. |
| Kernels.WithJitter | src/lib/math/kernels.ts:50-54 | Adds the jitter exactly when the inputs are equal and leaves every other value as it was. Jitter on a symmetric kernel keeps it symmetric. |
| Covariance.CovMatrix | src/lib/math/matrix.ts:11-22 | An n x n matrix for n inputs. It is symmetric for any kernel. Entry (i, j) with i <= j is kernel(xs[i], xs[j]), including the diagonal. |
| Covariance.BuildCovMatrix | src/lib/math/matrix.ts:12-21 | The triangle-filling double loop produces exactly that matrix. |
| Covariance.CovMatrixOfSymmetricKernel | src/lib/math/matrix.ts:14-19 | For a symmetric kernel, every entry (i, j) is kernel(xs[i], xs[j]). |
| Covariance.SampleMvn | src/lib/math/matrix.ts:62-79 | Absent noise or a row mismatch gives a |meanVec| x 1 zero matrix. Otherwise the result is covSqrt.rows x v.cols, and entry (i, j) is row i of covSqrt times column j of v, plus meanVec[i]. |
| Covariance.SampleOfZeroNoiseIsMean | src/lib/math/matrix.ts:69-78 | With all-zero noise, every column of the sample is the mean vector. |
| GaussianProcess.CovYf | src/lib/models/gaussianProcess.ts:30-38 | The cross-covariance is |X| x |xs|, with entry (i, j) = kernel(X[i], xs[j]). |
| GaussianProcess.CrossCovarianceWithItself | src/lib/models/gaussianProcess.ts:30-38 | For a symmetric kernel, the cross-covariance of the inputs with themselves is their covariance matrix. |
| GaussianProcess.Kyy | src/lib/models/gaussianProcess.ts:40-41 | The noisy observation covariance is symmetric. Its diagonal is the kernel plus the noise variance; off the diagonal it is the covariance matrix unchanged. |
| GaussianProcess.Weights | src/lib/models/gaussianProcess.ts:43-44 | The solved weights form an |X| x 1 column. |
| GaussianProcess.Mean | src/lib/models/gaussianProcess.ts:13-49 | One value per query input. The prior gives 0 everywhere. The posterior's value at xs[i] is column i of the cross-covariance dotted with the weights. |
| GaussianProcess.Cov | src/lib/models/gaussianProcess.ts:16-58 | An |xs| x |xs| matrix. For the prior it is the covariance matrix. For the posterior, entry (i, j) is the prior entry minus column i of the cross-covariance dotted with column j of the solved reduction. |
| GaussianProcess.KernelAt | src/lib/models/gaussianProcess.ts:18-63 | The prior returns its own kernel. The posterior's kernel at (x1, x2) is the prior kernel at (x1, x2) minus column 1 of the cross-covariance of [x1, x2] dotted with column 0 of the solved reduction. |
| GaussianProcess.PosteriorWithoutObservationsIsPrior | src/lib/models/gaussianProcess.ts:13-63 | A posterior built from no observations gives the prior's mean, covariance and kernel. This holds for any noise variance and any solver that returns a result of the right shape, here 0 rows for an empty system. |
| Utils.Linspace | src/lib/math/utils.ts:8-12 | Exactly num points, the first being start. A single point with the end point included is excluded, because it divides by zero. |
| Utils.LinspaceIsEvenlySpaced | src/lib/math/utils.ts:9-11 | Consecutive points differ by (stop - start) / div, where div is num - 1 with the end point and num without it. |
| Utils.LinspaceLastPoint | src/lib/math/utils.ts:9-11 | With the end point, the last point is exactly stop. Without it, the last point is one step short of stop. |
| Disagreement.SquaredDeviations | src/lib/math/disagreement.ts:27-30 | The running sum of squared deviations is never negative. |
| Disagreement.CalculateDisagreement | src/lib/math/disagreement.ts:18-33 | The disagreement is never negative, and it is 0 for an empty list. |
| Disagreement.CalculateStdDisagreement | src/lib/math/disagreement.ts:45-47 | Given a true square root, the result is non-negative and its square is the disagreement. |
| Disagreement.AgreeingPredictionsHaveNoDisagreement | src/lib/math/disagreement.ts:24-32 | Predictions that are all equal have disagreement 0. |
| Disagreement.DisagreementIsShiftInvariant | src/lib/math/disagreement.ts:24-32 | Adding the same constant to every prediction leaves the disagreement unchanged, because the mean moves with the predictions. |
| Disagreement.DisagreementOfZeroAndTen | src/lib/math/disagreement.ts:24-32 | Predictions 0 and 10 have disagreement 25. |
| Disagreement.PredictionsAt | src/lib/math/disagreement.ts:64-69 | The collected predictions at point i are row i of the samples matrix, one per sample column. |
| Disagreement.DisagreementFromSamples | src/lib/math/disagreement.ts:55-76 | Empty when there are no rows or no columns. Otherwise there is one value per row: the disagreement of that row. |
| Disagreement.StdDisagreementFromSamples | src/lib/math/disagreement.ts:84-105 | The same shape, with the standard-deviation form of each row's disagreement. |
| Disagreement.FindMaxDisagreementPoint | src/lib/math/disagreement.ts:114-141 | (0, 0) with no inputs or no rows. With rows but no columns, the first input and an undefined disagreement. Otherwise the largest disagreement over all rows, attained at its first row (earlier rows are strictly smaller), with that row's input, or undefined past the end of xs. |
| ConfidenceBands.PrepareConfidenceData | src/components/GaussianProcess/visualization/prepareConfidenceData.ts:13-34 | One record per input, carrying that input and its mean. Both bands are symmetric about the mean, the 1-sigma half-width is sqrt(variance + noise^2), and the 2-sigma band is twice as wide on each side. |
| ConfidenceBands.BandsAreOrdered | src/components/GaussianProcess/visualization/prepareConfidenceData.ts:19-23 | Given a true square root and non-negative variances, lower2 <= lower1 <= mean <= upper1 <= upper2, and the half-width squares to variance + noise^2. |
| GuideLine.NearestFold | src/components/GaussianProcess/visualization/GuideLineComponent.tsx:41-43 | Each step of the reduce yields the index it holds or a later position. On a non-empty grid the result is in range; on an empty one it is 0. |
| GuideLine.NearestIndex | src/components/GaussianProcess/visualization/GuideLineComponent.tsx:41-43 | Starting from index 0, the reduce gives 0 for an empty grid and an index of the grid otherwise. |
| GuideLine.NearestFoldIsFirstNearest | src/components/GaussianProcess/visualization/GuideLineComponent.tsx:41-43 | Each step of the reduce keeps the first input nearest to the line among those seen so far. |
| GuideLine.NearestIndexIsFirstNearest | src/components/GaussianProcess/visualization/GuideLineComponent.tsx:41-43 | On a non-empty grid the chosen index is in range and no input is nearer to the line. Every earlier input is strictly farther, so ties go to the lowest index. |
| GuideLine.NearestIndexExamples | src/components/GaussianProcess/visualization/GuideLineComponent.tsx:41-43 | On the grid 0, 1, 2, 3, a line at 1.4 picks index 1. A line midway between 0 and 2 picks index 0. |
| GuideLine.ReadGuideLine | src/components/GaussianProcess/visualization/GuideLineComponent.tsx:36-55 | Both readings are 0 unless there are samples with more than one column and a grid. Otherwise they are the disagreement, and its standard-deviation form, of the samples' row at the nearest index. |
| Store.Functions | src/lib/store/gaussianProcessStore.ts:16-22 | The target functions are: none gives 0, sine gives sin x, quadratic gives a non-negative y with 100 y = x^2, and linear gives y with 10 y = x. |
| Store.AddPoint | src/lib/store/gaussianProcessStore.ts:113 | The list grows by one. The old points stay in front, and the new point is last. |
| Store.UpdatePoint | src/lib/store/gaussianProcessStore.ts:114-118 | An index in range replaces only that point and keeps the length. The index one past the end appends. A negative index changes nothing. |
| Store.SpliceStart | src/lib/store/gaussianProcessStore.ts:121 | Where `splice` starts. A negative index counts back from the end and stops at 0. An index at or past the end stops at the end. |
| Store.RemovePoint | src/lib/store/gaussianProcessStore.ts:119-123 | An index in range removes exactly that point and keeps the others in order. A negative index removes the point at the splice start. An index at or past the end removes nothing. |
| Store.RemoveThenInsertRestores | src/lib/store/gaussianProcessStore.ts:119-123 | Re-inserting the removed point at its index restores the original list. |
| Store.AddThenRemoveLast | src/lib/store/gaussianProcessStore.ts:113-123 | Removing the last point after adding one, by its index or by -1, gives back the list. |
| Store.UpdateWithSameValueIsIdentity | src/lib/store/gaussianProcessStore.ts:114-118 | Writing a point's own value over it leaves the list unchanged. |
| Store.Apply | src/lib/store/gaussianProcessStore.ts:110-141 | Every action writes only its own field and leaves all others unchanged. Toggling flips the animation flag. Setting the message stores it. |
| Store.ApplyEditsPoints | src/lib/store/gaussianProcessStore.ts:112-124 | Setting points stores the given list, and clearing leaves an empty list. Adding, updating and removing change the list as `AddPoint`, `UpdatePoint` and `RemovePoint` do. |
| Store.ApplyStoresItsArgument | src/lib/store/gaussianProcessStore.ts:110-141 | Every setter leaves its argument in the field it writes. |
| Store.ToggleTwiceIsIdentity | src/lib/store/gaussianProcessStore.ts:132 | Toggling animation twice restores the state. |
| Store.YFromFunction | src/lib/store/gaussianProcessStore.ts:144-147 | The y is the selected entry of the function table at x. So it is 0 for no function and non-negative for the quadratic. |
| Store.AddPointWithFunction | src/lib/store/gaussianProcessStore.ts:148-192 | Each failure only sets its message, for an unreadable x, an x outside [0, 10] or an unreadable y. A readable x in [0, 10], with a function in use or a readable y, appends exactly (x, y) and announces it. Here y is the selected function at x or the parsed y text. Points change only in that case, and nothing but the points and the message changes. |
| Store.AddedPointsStayInRange | src/lib/store/gaussianProcessStore.ts:159-162 | If every point has x in [0, 10] before the helper runs, every point still does afterwards. |
| Store.InitialStateIsIdle | src/lib/store/gaussianProcessStore.ts:83-107 | The store starts with no points, samples or message, and it is not animating. The hyper-parameters are positive, and y is typed in rather than read from a function. The default x text is "5.0" and the default y text is "0.0". |
| Store.FirstPointFromDefaults | src/lib/store/gaussianProcessStore.ts:83-107 | From the initial state, the default texts "5.0" and "0.0" add the point (5, 0) and announce it. |

## Left out

- Floating point: the model computes over exact reals, so IEEE rounding, infinities and NaN propagation are not modelled.
- Transcendentals: exp, sin, sqrt and pi are parameters. Only exp 0 = 1, sin 0 = 0 and "sqrt is the non-negative root" are ever assumed, each where it is needed.
- `matrixSqrt` (src/lib/math/matrix.ts:27-38) and the singular-value solve in `posterior` are library numerics. The solve is a parameter with a shape law, and nothing is claimed about the accuracy of either.
- `randn` (src/lib/math/matrix.ts:43-57) draws random numbers. The noise matrix of `sampleMvn` is an input instead.
- `gaussianPdf` (src/lib/math/utils.ts:17-21) is not part of this model.
- Kernels.SqExpKernel: the source divides by 2 * lengthscale^2 in one step, while the model divides by 2 and then by lengthscale twice. Over the reals the two quotients are equal.
- Kernels.PeriodicKernel: the source divides by lengthscale^2 in one step; the model divides by lengthscale twice. The quotients are equal over the reals.
- The kernels require a non-zero lengthscale and period, because those are divisors. The program would produce infinities or NaN there.
- GaussianProcess.Mean: a posterior requires one Y per X and a solver of known shape. The program does not check either.
- `posterior`'s default noise variance of 0 is not a default argument in the model. The constructor always takes it explicitly.
- Covariance.SampleMvn: requires |meanVec| >= covSqrt.rows on the sampling branch. The program would add `undefined` there.
- Utils.Linspace: `num` is a natural number, and num = 1 with the end point included is excluded. The program yields [NaN] for that call.
- ConfidenceBands.PrepareConfidenceData: requires `means` and `marginalVariances` to be at least as long as `xs`. The program would read `undefined` past their ends.
- GuideLine.ReadGuideLine: requires the nearest index to name a row of the samples, as it does when the samples were drawn on that grid. An index past the rows would make the program read a missing row.
- Store.UpdatePoint: requires an index at most the list length. A larger index would leave holes in the JavaScript array, which a sequence cannot hold.
- Store.AddPointWithFunction: `parseFloat` is the parameter `parse`, with `None` standing for NaN. An input that parses to an infinity cannot be represented.
- The success message is the notice `AddedPoint(x, y)` rather than the text formatted with `toFixed(2)`.
- The `try`/`catch` of `addPointWithFunction` is not modelled, because nothing in the modelled body throws.
- The `console.log` calls and the `setTimeout` that clears the success message after two seconds are not part of this model.
- `sampleCount`, `width` and other numeric store fields are reals, as in JavaScript. No integrality is imposed.
- Rendering, D3 drawing, dragging, React components, the animation loop and the prior/posterior choice in the page component are not part of this model.
- GaussianProcess.PosteriorWithoutObservationsIsPrior: the program never builds a posterior from no points. The page picks the prior instead (src/page/GaussianProcessPage.tsx:39-46). What ml-matrix's singular-value solve does with an empty 0 x 0 system is not modelled. The lemma holds for every solver that keeps the shape.
- Disagreement.CalculateDisagreement: only "all equal gives zero" is proved. The converse, that zero disagreement means all predictions are equal, is not stated, because it needs "a square is zero only at zero" inside the sum, and the solver does not establish that step.

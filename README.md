# AIRS-GSeed in Dafny

AIRS-GSeed is a research pipeline for groundnut seed quality. It has four
parts, and this project models each of them:

- **Synthetic data generator** (`DataGenerator`, imperative). It produces:
  - UAV RGB images with brown leaf-spot disks;
  - five-band multispectral images with NIR / red-edge stress;
  - hyperspectral seed spectra with water and protein absorption dips, plus
    a darkened "fungal" variant and its labels (germination, fungal
    presence, aflatoxin);
  - soil sensor series, storage IoT series with CO2 / VOC spoilage events,
    and daily weather.
- **Fusion models** (`SeedHealthModel`, `AflatoxinRiskModel`, `CNNViTHybrid`)
  and their training loops (`train_seed_models`, `train_canopy_model`). The
  models are described by the tensor shapes their layers produce and by
  their output range. Training is a fold over epochs: optimiser steps on the
  parameters, per-epoch losses, a validation metric, and a best-so-far
  tracker that writes a checkpoint on strict improvement.
- **Closed-form indices** from `generate_custom_results.py`:
  - the Seed Health Index (SHI) and the Aflatoxin Risk Score (ARS) of a
    measured dataset;
  - the quality / risk labels;
  - the `Change_%` row of the summary table.
- **Experiment glue and dataset reading**:
  - `SimpleDataset`, the synthetic SHI / ARS labels and the test-set
    prediction loops of `src/experiments/generate_results.py`;
  - the column classification of `read_custom_dataset.py`.

Modules:

| file | module | source |
|---|---|---|
| `Common.dfy` | `Common` | shared helpers: `np.clip`, uniform draws, `np.linspace`, running best and improvements, argmax |
| `Shapes.dfy` | `Shapes` | shape propagation through `nn.Sequential` layers |
| `Training.dfy` | `Training` | a trainable module's parameters and its train/eval flag; the epoch fold |
| `DataGen.dfy` | `DataGen` | `src/data/data_generator.py` |
| `SeedModels.dfy` | `SeedModels` | `src/models/seed_health_model.py` |
| `Canopy.dfy` | `Canopy` | `src/models/canopy_stress_model.py` |
| `CustomResults.dfy` | `CustomResults` | `generate_custom_results.py` |
| `Experiments.dfy` | `Experiments` | `src/experiments/generate_results.py` |
| `DatasetReader.dfy` | `DatasetReader` | `read_custom_dataset.py` |

How the model is built:

- **Randomness.** Every random draw is an input. A record of functions from
  an index to a value in the draw's range stands for each generator's draws.
- **Transcendental functions.**
  - `sin(2*pi*t/period)` is a parameter whose values lie in [-1, 1].
  - `torch.sigmoid` is a parameter whose values lie in (0, 1).
  - `np.log(x + 1)` of the aflatoxin label is a non-negative input.
- **Out of scope calls.** Optimiser steps, losses and validation metrics
  (`r2_score`, accuracy) are function parameters of the training loops.
- **Arrays.** numpy arrays that the generator builds and then updates in
  place (`img[mask, c] = ...`, `spectrum[window] *= f`, `co2[start:] += ...`,
  `voc[start:] = 1`, `np.clip`, `precip[precip > 20] = 0`) are Dafny arrays
  updated by loops. Each such method is specified by a function of the draws.
- **Numbers.** Every value is an exact real, not a float32 or float64.
  - In float32, `torch.sigmoid` of a logit of about 17 or more rounds to
    exactly 1, so the score is exactly 100.0. The strict bound
    0 < score < 100 of `SeedModels.ScoreForward` holds for the sigmoid
    parameter of this model, whose values lie strictly inside (0, 1).
  - numpy's `uniform(a, b)` can round onto `b`. The half-open ranges stated
    for draws are those of exact arithmetic.

Where the behaviour differs from a description of the design, the model
follows the code:

- **Failure on bad input.** No generator checks its arguments.
  - Zero images, multispectral images, spectra or weather days give empty
    results.
  - Three generators can raise, and each is modelled with a failure status:
    - `generate_uav_rgb` when the images are 0 pixels high and some image
      takes the disease branch (the spot centre `randint(0, 0)` raises);
      with no diseased image it returns the empty-height images;
    - `generate_storage_iot` when `n_units == 0` (`pd.concat([])` raises)
      or `n_days < 32`, zero days included
      (`np.random.choice(range(30, n_days), 2, replace=False)` raises);
    - `generate_soil_sensor_data` when `n_sensors == 0` (`pd.concat([])`
      raises).
  - No generator checks the spectral length against the absorption windows.
- **Spoilage events.** Every storage unit gets exactly two distinct spoilage
  days, not one or two.
  - VOC turns to 1 at the earlier one, counted in 5-minute samples
    (`288 * day`).
  - The CO2 ramps of both days add up.
- **Soil "days".** The soil series' `days` is the sample index. So its
  "monthly" period is 30 samples (7.5 hours), not 30 days.
- **Canopy classes.** The canopy classifier defaults to 4 classes, not 2.
- **Best scores.** The best R² and the best accuracy start at 0.0.
  - A run whose validation metric never exceeds 0 writes no checkpoint.
  - Its best stays 0.0.
- **Non-finite losses.** A non-finite loss is not treated specially.
  - An empty training loader is a division by zero after one epoch of
    (no) steps.
  - An empty validation loader is `torch.cat([])` for the regressors, or
    `0 / 0` for the classifier.
  - Both are modelled as failure statuses.
- **Missing pathogen readings.** A missing pathogen infestation reading
  counts as 0 in three places:
  - the indices fill it with 0 (`fillna(0)`, generate_custom_results.py:55,
    76 and 218);
  - the summary table's Initial column shows 0 for a missing initial
    reading (`pd.isna`, generate_custom_results.py:346);
  - the pathogen row of Change_% is 0 when the month-2 reading is missing,
    because a NaN is not `> 0` (generate_custom_results.py:370).
- **Quality keywords.** The `vigor` keyword does not match the dataset's
  `Vigour index` column (British spelling). So that column is not reported
  as a quality indicator (`DatasetReader.VigourIndexNotMatched`).

## Model

| member | source | states |
|---|---|---|
| Common.Clip | Codebase/AIRS-GSeet/generate_custom_results.py:47 | `np.clip`: the result lies in [lo, hi], equals x inside the range, and is the nearer bound outside it |
| Common.ClipMonotone | Codebase/AIRS-GSeet/generate_custom_results.py:51-52 | clipping preserves order, which makes every clipped score monotone in its input |
| Common.Uniform | Codebase/AIRS-GSeet/src/data/data_generator.py:30 | `np.random.uniform(a, b)` lies in [a, b) |
| Common.RandInt | Codebase/AIRS-GSeet/src/data/data_generator.py:35 | `np.random.randint(lo, hi)` lies in [lo, hi) |
| Common.LinspaceAt | Codebase/AIRS-GSeet/src/data/data_generator.py:137 | `np.linspace` starts at a |
| Common.LinspaceLast | Codebase/AIRS-GSeet/src/data/data_generator.py:137 | `np.linspace`'s last point is b |
| Common.LinspaceBetween | Codebase/AIRS-GSeet/src/data/data_generator.py:137 | every `np.linspace` point lies between a and b |
| Common.BestAfterSnoc | Codebase/AIRS-GSeet/src/models/canopy_stress_model.py:127-129 | one more epoch updates the best and appends a checkpoint exactly on strict improvement |
| Common.BestAfterIsMax | Codebase/AIRS-GSeet/src/models/canopy_stress_model.py:88 | the best is at least the start value and every metric seen, and is one of them |
| Common.BestAfterMonotone | Codebase/AIRS-GSeet/src/models/seed_health_model.py:227-233 | the best over a prefix never exceeds the best over the whole run: the recorded best never decreases |
| Common.ImprovementsInRange | Codebase/AIRS-GSeet/src/models/canopy_stress_model.py:127-129 | checkpoints are only written at epochs that ran |
| Common.ImprovementsExact | Codebase/AIRS-GSeet/src/models/canopy_stress_model.py:127-129 | a checkpoint is written at epoch i iff metric i strictly beats the best of the earlier epochs |
| Common.ImprovementsIncreasing | Codebase/AIRS-GSeet/src/models/canopy_stress_model.py:127-129 | checkpoint epochs are strictly increasing |
| Common.Observe | Codebase/AIRS-GSeet/src/models/seed_health_model.py:227-229 | observing one metric never lowers the best, sets it to that metric or keeps it, and adds at most one checkpoint |
| Common.ObserveNext | Codebase/AIRS-GSeet/src/models/seed_health_model.py:227-233 | the loop's step-by-step tracker equals the tracker of the whole metric history |
| Common.ImprovementHoldsMetric | Codebase/AIRS-GSeet/src/models/canopy_stress_model.py:127-129 | the state saved at a checkpoint epoch has the best metric up to that epoch |
| Common.Argmax | Codebase/AIRS-GSeet/src/models/canopy_stress_model.py:118 | `torch.max(..., 1)[1]`: the index of a maximal logit, the first such one |
| Shapes.RunAppend | Codebase/AIRS-GSeet/src/models/seed_health_model.py:17-26 | running `nn.Sequential(a + b)` is running a then b, and fails if either fails |
| Shapes.MlpShape | Codebase/AIRS-GSeet/src/models/seed_health_model.py:29-34 | a Linear-ReLU-Dropout-Linear block maps exactly width w to width o and refuses any other input |
| Training.Trainable.constructor | Codebase/AIRS-GSeet/src/models/seed_health_model.py:13-14 | a new module holds its initial parameters and is in training mode |
| Training.EpochLosses | Codebase/AIRS-GSeet/src/models/canopy_stress_model.py:107-108 | one recorded training loss per epoch |
| Training.EpochMetrics | Codebase/AIRS-GSeet/src/models/canopy_stress_model.py:122-123 | one validation metric per epoch |
| Training.EpochMetricsBounded | Codebase/AIRS-GSeet/src/models/canopy_stress_model.py:122-123 | a metric bounded on every parameter state is bounded in every epoch |
| Training.RunAfter | Codebase/AIRS-GSeet/src/models/canopy_stress_model.py:92-129 | after k epochs there are k losses and k metrics |
| Training.RunAfterParams | Codebase/AIRS-GSeet/src/models/canopy_stress_model.py:96-103 | the parameters after k epochs are the k*n optimiser steps applied in order |
| Training.EpochLossesSnoc | Codebase/AIRS-GSeet/src/models/canopy_stress_model.py:107-108 | each epoch appends its mean batch loss to the loss history |
| Training.EpochMetricsSnoc | Codebase/AIRS-GSeet/src/models/canopy_stress_model.py:122-123 | each epoch appends the metric of the parameters it ends with |
| Training.RunAfterLossesSnoc | Codebase/AIRS-GSeet/src/models/canopy_stress_model.py:105-108 | the fold's loss history grows by the epoch's mean loss |
| Training.RunAfterLosses | Codebase/AIRS-GSeet/src/models/canopy_stress_model.py:105-108 | the fold's losses are the epoch losses in closed form |
| Training.RunAfterMetrics | Codebase/AIRS-GSeet/src/models/canopy_stress_model.py:122-123 | the fold's metrics are the per-epoch metrics in closed form |
| Training.RunAfterTracker | Codebase/AIRS-GSeet/src/models/canopy_stress_model.py:127-129 | the fold's best and checkpoints are the tracker of its metric history, starting from 0.0 |
| Training.RunAfterMatches | Codebase/AIRS-GSeet/src/models/canopy_stress_model.py:92-129 | a whole run in closed form: parameters, loss history, metric history and tracker |
| Training.LossSumNonNeg | Codebase/AIRS-GSeet/src/models/seed_health_model.py:168-171 | a sum of non-negative (MSE or cross-entropy) batch losses is non-negative |
| Training.EpochLossesNonNeg | Codebase/AIRS-GSeet/src/models/seed_health_model.py:185-186 | every recorded epoch loss is non-negative |
| Training.TrainOneEpoch | Codebase/AIRS-GSeet/src/models/canopy_stress_model.py:96-105 | one pass over n batches applies the n optimiser steps in order and returns the sum of their losses |
| SeedModels.ShiSpectralEncoderShape | Codebase/AIRS-GSeet/src/models/seed_health_model.py:17-26 | the three strided convolutions and pooling give 256 features iff the spectrum is non-empty |
| SeedModels.ArsSpectralBranchShape | Codebase/AIRS-GSeet/src/models/seed_health_model.py:85-93 | the ARS spectral branch gives 64 features iff the spectrum is non-empty |
| SeedModels.FusionHeadShape | Codebase/AIRS-GSeet/src/models/seed_health_model.py:52-60 | the fusion head maps exactly its input width to one output |
| SeedModels.ShiForwardShapeExact | Codebase/AIRS-GSeet/src/models/seed_health_model.py:45-75 | the SHI forward pass gives one score per sample iff the hidden width is a positive multiple of the 8 attention heads, the spectrum is non-empty and the UAV / environment widths are the configured ones |
| SeedModels.DefaultShiForwardShape | Codebase/AIRS-GSeet/src/models/seed_health_model.py:10-75 | the default SHI model scores a 2151-point spectrum with 128 UAV and 10 environment features; with a hidden width of 100 it cannot be built |
| SeedModels.ArsForwardShapeExact | Codebase/AIRS-GSeet/src/models/seed_health_model.py:122-133 | the ARS forward pass gives one score per sample iff the spectrum is non-empty and the field / storage widths are the configured ones |
| SeedModels.ScoreForward | Codebase/AIRS-GSeet/src/models/seed_health_model.py:72-75 | each SHI prediction (and, on the ARS samples of lines 130-133, each ARS prediction) is sigmoid(fusion) * 100, one per sample, strictly between 0 and 100 for every input |
| SeedModels.BestR2InUnitRange | Codebase/AIRS-GSeet/src/models/seed_health_model.py:147-148 | with R² at most 1, the returned best R² lies in [0, 1] |
| SeedModels.TrainEpoch | Codebase/AIRS-GSeet/src/models/seed_health_model.py:150-186 | each regressor's parameters are its own steps and its loss its own sum: the two never share gradients |
| SeedModels.SeedEpoch | Codebase/AIRS-GSeet/src/models/seed_health_model.py:150-233 | an epoch fails with division by zero on an empty training loader and with an empty validation set otherwise; when it completes, its losses, R² values and trackers are those of the two models |
| SeedModels.TrainSeedModels | Codebase/AIRS-GSeet/src/models/seed_health_model.py:136-240 | status per the two error cases; on completion each model's parameters, losses, best R² and checkpoints are its own `RunAfter` |
| Canopy.NumPatches | Codebase/AIRS-GSeet/src/models/canopy_stress_model.py:27 | `(img_size // patch_size) ** 2`, undefined iff the patch size is 0 |
| Canopy.DefaultNumPatches | Codebase/AIRS-GSeet/src/models/canopy_stress_model.py:14-27 | the default configuration has 256 patches |
| Canopy.PatchSideIsQuotient | Codebase/AIRS-GSeet/src/models/canopy_stress_model.py:31 | the stride-p, kernel-p patch convolution gives side // p patches per side |
| Canopy.CanopyForwardShapeExact | Codebase/AIRS-GSeet/src/models/canopy_stress_model.py:37-79 | a forward pass gives one logit per class iff the embedding is non-empty and split evenly over a positive number of heads, there is at least one encoder layer, the image is RGB, at least one patch wide and high, and its patch grid broadcasts against the positional embedding |
| Canopy.DefaultForwardShape | Codebase/AIRS-GSeet/src/models/canopy_stress_model.py:14-79 | the default model maps a 256 x 256 RGB image to 4 logits; with 5 heads over the 768-wide embedding, an empty embedding or no encoder layers it cannot be built or run |
| Canopy.Predictions | Codebase/AIRS-GSeet/src/models/canopy_stress_model.py:117-118 | each predicted class is the argmax of the image's logits |
| Canopy.CountEqual | Codebase/AIRS-GSeet/src/models/canopy_stress_model.py:120 | the count of correct predictions is at most the batch size |
| Canopy.CountEqualExtremes | Codebase/AIRS-GSeet/src/models/canopy_stress_model.py:120 | all predictions right gives the batch size; all wrong gives 0 |
| Canopy.Targets | Codebase/AIRS-GSeet/src/models/canopy_stress_model.py:115-119 | the targets of a batch, in order |
| Canopy.CorrectAtMostTotal | Codebase/AIRS-GSeet/src/models/canopy_stress_model.py:112-120 | correct predictions never exceed the examples seen |
| Canopy.Accuracy | Codebase/AIRS-GSeet/src/models/canopy_stress_model.py:122 | validation accuracy lies in [0, 1] |
| Canopy.PerfectAccuracy | Codebase/AIRS-GSeet/src/models/canopy_stress_model.py:122 | accuracy is 1 iff every validation example is classified correctly |
| Canopy.Validate | Codebase/AIRS-GSeet/src/models/canopy_stress_model.py:111-120 | the validation loop counts exactly the correct predictions and the examples, and correct <= total |
| Canopy.EpochAccuraciesInUnitRange | Codebase/AIRS-GSeet/src/models/canopy_stress_model.py:122-123 | every recorded accuracy lies in [0, 1] |
| Canopy.BestAccuracyInUnitRange | Codebase/AIRS-GSeet/src/models/canopy_stress_model.py:127-134 | the returned best accuracy lies in [0, 1] |
| Canopy.CanopyEpoch | Codebase/AIRS-GSeet/src/models/canopy_stress_model.py:92-129 | an epoch fails on an empty training loader or an empty validation set; otherwise its mean loss and accuracy are those of the parameters it trains |
| Canopy.TrainCanopyModel | Codebase/AIRS-GSeet/src/models/canopy_stress_model.py:82-134 | status per the error cases; on success the parameters, losses, accuracies, best accuracy and checkpoints are `RunAfter` with accuracy as the metric |
| DataGen.SpotCount | Codebase/AIRS-GSeet/src/data/data_generator.py:35 | a diseased image has 5 to 14 spots |
| DataGen.SpotOf | Codebase/AIRS-GSeet/src/data/data_generator.py:37-43 | both centre coordinates lie in [0, height) (the column centre too, so it can fall outside an image narrower than it is high), its radius in [10, 30), and its brown colour in the drawn ranges |
| DataGen.LastSpotWins | Codebase/AIRS-GSeet/src/data/data_generator.py:36-43 | a pixel covered by several spots has the colour of the last one painted |
| DataGen.UncoveredKeepsBase | Codebase/AIRS-GSeet/src/data/data_generator.py:29-30 | a pixel no spot covers keeps its base value |
| DataGen.CoveredIsBrown | Codebase/AIRS-GSeet/src/data/data_generator.py:41-43 | a covered pixel lies in the brown colour ranges |
| DataGen.UavOutsideDisks | Codebase/AIRS-GSeet/src/data/data_generator.py:29-30 | outside every disk red and blue are 0 and green is the base draw |
| DataGen.UavGreenMarksSpots | Codebase/AIRS-GSeet/src/data/data_generator.py:30-43 | green below 0.4 iff the pixel lies in some leaf spot of a diseased image |
| DataGen.PaintSpot | Codebase/AIRS-GSeet/src/data/data_generator.py:39-43 | overwrites exactly the pixels inside the disk with the spot's colour |
| DataGen.UavImage | Codebase/AIRS-GSeet/src/data/data_generator.py:28-47 | fails iff the image is diseased and 0 pixels high; otherwise every pixel equals its specification and the label is 1 iff the image is diseased |
| DataGen.GenerateUavRgb | Codebase/AIRS-GSeet/src/data/data_generator.py:22-51 | fails iff the images are 0 pixels high and some image is diseased; otherwise n images of the requested shape, each equal to its specification, with labels in {0, 1} |
| DataGen.BandHigh | Codebase/AIRS-GSeet/src/data/data_generator.py:62-66 | each band's base range is non-empty |
| DataGen.MsBase | Codebase/AIRS-GSeet/src/data/data_generator.py:62-66 | a base value lies in its band's range |
| DataGen.MsStressEffect | Codebase/AIRS-GSeet/src/data/data_generator.py:69-73 | stressed pixels scale NIR by 0.6, red-edge by 0.7 and red by 1.2; other bands and pixels keep the base value |
| DataGen.MsPixelRange | Codebase/AIRS-GSeet/src/data/data_generator.py:62-73 | every multispectral value lies in [0.1, 0.9) |
| DataGen.MsNirMarksStress | Codebase/AIRS-GSeet/src/data/data_generator.py:62-71 | NIR below 0.6 iff the pixel is stressed |
| DataGen.StressPixels | Codebase/AIRS-GSeet/src/data/data_generator.py:70-73 | scales exactly the masked pixels' bands by the stress factors |
| DataGen.MultispectralImage | Codebase/AIRS-GSeet/src/data/data_generator.py:59-73 | every value equals its specification |
| DataGen.GenerateMultispectral | Codebase/AIRS-GSeet/src/data/data_generator.py:53-77 | n images of the requested shape, each equal to its specification |
| DataGen.WavelengthRange | Codebase/AIRS-GSeet/src/data/data_generator.py:137 | wavelengths lie in [400, 2500] nm, from 400 to 2500 |
| DataGen.AbsorbedClosedForm | Codebase/AIRS-GSeet/src/data/data_generator.py:148-156 | the base reflectance is 0.5 times the factor of each absorption window that contains the wavelength |
| DataGen.Darkening | Codebase/AIRS-GSeet/src/data/data_generator.py:165 | the darkening factor lies in [0.7, 0.9) |
| DataGen.SpectrumBranches | Codebase/AIRS-GSeet/src/data/data_generator.py:147-167 | healthy: absorption plus noise; unhealthy: that times the darkening, and times 0.75 more inside the fungal window |
| DataGen.Germination | Codebase/AIRS-GSeet/src/data/data_generator.py:169-173 | germination lies in [40, 70) for unhealthy seeds and in [75, 95) for healthy ones |
| DataGen.FungalPresence | Codebase/AIRS-GSeet/src/data/data_generator.py:170-174 | the fungal label is 0 or 1 |
| DataGen.GerminationMarksFungus | Codebase/AIRS-GSeet/src/data/data_generator.py:162-174 | germination below 70 iff the fungal label is 1 |
| DataGen.ScaleWindow | Codebase/AIRS-GSeet/src/data/data_generator.py:152 | scales exactly the values whose wavelength lies in the window |
| DataGen.AddSeries | Codebase/AIRS-GSeet/src/data/data_generator.py:159 | adds the noise element-wise |
| DataGen.ScaleAll | Codebase/AIRS-GSeet/src/data/data_generator.py:165 | scales every value |
| DataGen.AbsorptionProfile | Codebase/AIRS-GSeet/src/data/data_generator.py:148-156 | a fresh spectrum equal to the absorption profile |
| DataGen.Degrade | Codebase/AIRS-GSeet/src/data/data_generator.py:163-167 | darkens everything and applies the fungal dip |
| DataGen.SeedSpectrum | Codebase/AIRS-GSeet/src/data/data_generator.py:147-167 | a fresh spectrum equal to its specification |
| DataGen.GenerateHyperspectralSeed | Codebase/AIRS-GSeet/src/data/data_generator.py:134-182 | the wavelength grid, n spectra equal to their specification, and n labels of each kind matching each seed's health |
| DataGen.ClipSeries | Codebase/AIRS-GSeet/src/data/data_generator.py:110 | `np.clip` element-wise |
| DataGen.SpoilageDays | Codebase/AIRS-GSeet/src/data/data_generator.py:210 | two distinct spoilage days in [30, n_days) |
| DataGen.RampRange | Codebase/AIRS-GSeet/src/data/data_generator.py:213 | the CO2 ramp is 0 up to its start and rises to 500 at the last sample |
| DataGen.SpoilageRaisesCo2 | Codebase/AIRS-GSeet/src/data/data_generator.py:208-213 | spoilage only raises CO2: the unclipped level is at least 400 plus noise and equals it before the first spoilage sample; the clipped level returned is at least the clipped no-spoilage level and equals it before that sample |
| DataGen.VocStep | Codebase/AIRS-GSeet/src/data/data_generator.py:217-221 | VOC is 0 or 1, is 1 iff the sample is at or after the first spoilage sample, and never falls back |
| DataGen.AddRamp | Codebase/AIRS-GSeet/src/data/data_generator.py:213 | adds the ramp from its start to the end of the array |
| DataGen.SetFrom | Codebase/AIRS-GSeet/src/data/data_generator.py:221 | sets 1 from the start index on and keeps the rest |
| DataGen.Co2Series | Codebase/AIRS-GSeet/src/data/data_generator.py:208-215 | a fresh series of 288 samples per day equal to the CO2 specification |
| DataGen.VocSeries | Codebase/AIRS-GSeet/src/data/data_generator.py:218-221 | a fresh series equal to the VOC specification |
| DataGen.StorageUnitSeries | Codebase/AIRS-GSeet/src/data/data_generator.py:191-221 | four series of equal length, each equal to its specification |
| DataGen.StorageStatus | Codebase/AIRS-GSeet/src/data/data_generator.py:210-234 | generation succeeds iff there is a unit and at least 32 days |
| DataGen.GenerateStorageIot | Codebase/AIRS-GSeet/src/data/data_generator.py:184-234 | the failure cases, and on success n units whose series equal their specification |
| DataGen.SoilClipsInactive | Codebase/AIRS-GSeet/src/data/data_generator.py:108-120 | within the noise bounds given, the moisture and EC clips leave the value unchanged |
| DataGen.SoilSensorSeries | Codebase/AIRS-GSeet/src/data/data_generator.py:103-120 | three series of 96 samples per day, each equal to its specification |
| DataGen.GenerateSoilSensorData | Codebase/AIRS-GSeet/src/data/data_generator.py:96-132 | fails iff there are no sensors; otherwise n_sensors * n_days * 96 rows, each series equal to its specification |
| DataGen.WeatherRanges | Codebase/AIRS-GSeet/src/data/data_generator.py:246-259 | precipitation in [0, 20], kept iff at most 20; rh in [40, 90]; solar in [10, 30]; wind in [5, 15] |
| DataGen.ZeroAbove | Codebase/AIRS-GSeet/src/data/data_generator.py:247 | zeroes exactly the values above the limit |
| DataGen.GenerateWeatherData | Codebase/AIRS-GSeet/src/data/data_generator.py:236-271 | six daily series of length n_days, each equal to its specification |
| CustomResults.VigourScore | Codebase/AIRS-GSeet/generate_custom_results.py:46-47 | the vigour score lies in [0, 100] |
| CustomResults.MoistureScore | Codebase/AIRS-GSeet/generate_custom_results.py:50-52 | the moisture score lies in [0, 100] |
| CustomResults.PathogenScore | Codebase/AIRS-GSeet/generate_custom_results.py:55-57 | the pathogen score lies in [0, 100] |
| CustomResults.ShiOf | Codebase/AIRS-GSeet/generate_custom_results.py:43-61 | SHI lies in [0, 100] when germination does |
| CustomResults.SeedHealthIndex | Codebase/AIRS-GSeet/generate_custom_results.py:37-63 | one SHI per record, in [0, 100] where germination is |
| CustomResults.MoistureRisk | Codebase/AIRS-GSeet/generate_custom_results.py:71-73 | the moisture risk lies in [0, 100] |
| CustomResults.PathogenRisk | Codebase/AIRS-GSeet/generate_custom_results.py:76-78 | the pathogen risk lies in [0, 100] |
| CustomResults.EcRisk | Codebase/AIRS-GSeet/generate_custom_results.py:81-83 | the EC risk lies in [0, 100] |
| CustomResults.ArsOf | Codebase/AIRS-GSeet/generate_custom_results.py:71-86 | ARS lies in [0, 100] for every record |
| CustomResults.AflatoxinRiskScore | Codebase/AIRS-GSeet/generate_custom_results.py:66-88 | one ARS per record, each in [0, 100] |
| CustomResults.MissingPathogenIsZero | Codebase/AIRS-GSeet/generate_custom_results.py:55 | a missing pathogen reading scores as a reading of 0, for SHI and ARS |
| CustomResults.MoistureScoreShape | Codebase/AIRS-GSeet/generate_custom_results.py:49-52 | the moisture score is 100 iff moisture is 8%, is symmetric about 8% and is 0 at 10 points or more away |
| CustomResults.ShiNeedsGerminationInRange | Codebase/AIRS-GSeet/generate_custom_results.py:43 | germination is not clipped, so a germination above 100 gives an SHI above 100 |
| CustomResults.ShiMonotone | Codebase/AIRS-GSeet/generate_custom_results.py:43-61 | SHI rises with germination and vigour and falls with pathogen infestation |
| CustomResults.ArsMonotone | Codebase/AIRS-GSeet/generate_custom_results.py:71-86 | ARS rises with moisture, pathogen infestation and EC |
| CustomResults.QualityIntervals | Codebase/AIRS-GSeet/generate_custom_results.py:324-325 | Excellent iff SHI > 80, Good iff 70 < SHI <= 80, Fair iff SHI <= 70 |
| CustomResults.RiskIntervals | Codebase/AIRS-GSeet/generate_custom_results.py:326-327 | Low iff ARS < 20, Medium iff 20 <= ARS < 40, High iff ARS >= 40 |
| CustomResults.LabelsMonotone | Codebase/AIRS-GSeet/generate_custom_results.py:324-327 | a higher SHI never lowers the quality label and a higher ARS never lowers the risk level |
| CustomResults.QualityColumn | Codebase/AIRS-GSeet/generate_custom_results.py:324-325 | one label per record, Excellent iff its SHI > 80 |
| CustomResults.RiskColumn | Codebase/AIRS-GSeet/generate_custom_results.py:326-327 | one level per record, Low iff its ARS < 20 |
| CustomResults.PercentChange | Codebase/AIRS-GSeet/generate_custom_results.py:367-369 | the percentage change is undefined iff the initial value is 0 |
| CustomResults.SummaryChanges | Codebase/AIRS-GSeet/generate_custom_results.py:343-373 | the Change_% row exists iff the dataset has at least three records |
| CustomResults.ArsChangeDefined | Codebase/AIRS-GSeet/generate_custom_results.py:372 | the ARS change is 0 when the initial ARS is 0, otherwise the percentage change, and never below -100% |
| CustomResults.RatioAtLeastMinusOne | Codebase/AIRS-GSeet/generate_custom_results.py:372 | a change from a positive to a non-negative value is at least -100% |
| CustomResults.ShiChangeUndefinedAtZero | Codebase/AIRS-GSeet/generate_custom_results.py:371 | the SHI change is undefined iff the initial SHI is 0 (that division is not guarded) |
| Experiments.Len | Codebase/AIRS-GSeet/src/experiments/generate_results.py:37-38 | `len` fails iff the dataset has no columns, and otherwise is the first column's length |
| Experiments.GetItem | Codebase/AIRS-GSeet/src/experiments/generate_results.py:40-41 | an item exists iff the index is in range of every column; it has the same keys and each value is that column's entry |
| Experiments.EqualColumnsReadable | Codebase/AIRS-GSeet/src/experiments/generate_results.py:37-41 | with equal-length columns, every index below `len` can be read and no other |
| Experiments.ShiLabel | Codebase/AIRS-GSeet/src/experiments/generate_results.py:175-176 | the synthetic SHI label lies in [0, 100] |
| Experiments.ShiLabelClipInactive | Codebase/AIRS-GSeet/src/experiments/generate_results.py:175-176 | for germination in [0, 100] the clip leaves 0.7 * germination + 30 * (1 - fungal) |
| Experiments.ShiLabelSeparates | Codebase/AIRS-GSeet/src/experiments/generate_results.py:175-176 | with the generator's germination ranges, every infected seed's label is below every clean seed's |
| Experiments.ArsLabel | Codebase/AIRS-GSeet/src/experiments/generate_results.py:179 | the ARS label lies in [0, 100], saturates at 100 iff 15 * log(ppb + 1) >= 100, and is that value otherwise |
| Experiments.ShiLabels | Codebase/AIRS-GSeet/src/experiments/generate_results.py:175-176 | element-wise labels, one per seed, each in [0, 100] |
| Experiments.ArsLabels | Codebase/AIRS-GSeet/src/experiments/generate_results.py:179 | element-wise labels, one per seed, each in [0, 100] |
| Experiments.ShiLabelsAsWritten | Codebase/AIRS-GSeet/src/experiments/generate_results.py:175 | the expression as written on Python lists fails |
| Experiments.LabelsAsWrittenFail | Codebase/AIRS-GSeet/src/experiments/generate_results.py:175-179 | the as-written labels fail on every input, while on generated seeds the intended labels are exactly `0.7 * g + 30 * (1 - f)` seed by seed |
| Experiments.BatchPredictions | Codebase/AIRS-GSeet/src/experiments/generate_results.py:88-89 | one prediction per row, each a valid class |
| Experiments.PredictionsAreRowArgmax | Codebase/AIRS-GSeet/src/experiments/generate_results.py:86-91 | the collected predictions are the argmax of each test row, one per target |
| Experiments.CollectPredictions | Codebase/AIRS-GSeet/src/experiments/generate_results.py:83-91 | the test loop collects the batches' predictions and targets in order, equally many |
| Experiments.CollectSeedPredictions | Codebase/AIRS-GSeet/src/experiments/generate_results.py:240-259 | the four lists are the batches' SHI / ARS predictions and targets in order, all of equal length |
| DatasetReader.LowerChar | Codebase/AIRS-GSeet/read_custom_dataset.py:54 | ASCII capitals map to lower case and every other character is unchanged |
| DatasetReader.Lower | Codebase/AIRS-GSeet/read_custom_dataset.py:54 | `str.lower` character by character, same length |
| DatasetReader.ContainsOccurs | Codebase/AIRS-GSeet/read_custom_dataset.py:54-55 | `x in s` iff x occurs at some position of s |
| DatasetReader.MissingCharNotContained | Codebase/AIRS-GSeet/read_custom_dataset.py:54-55 | a keyword containing a character absent from the name does not occur in it |
| DatasetReader.Names | Codebase/AIRS-GSeet/read_custom_dataset.py:54 | the column names in order |
| DatasetReader.NamesMatchingExact | Codebase/AIRS-GSeet/read_custom_dataset.py:54-61 | a keyword selection keeps column order and holds exactly the names matching some keyword |
| DatasetReader.NamesOfKindExact | Codebase/AIRS-GSeet/read_custom_dataset.py:47-51 | a dtype selection keeps column order and holds exactly the names of that kind |
| DatasetReader.DateCols | Codebase/AIRS-GSeet/read_custom_dataset.py:51-55 | datetime columns if there are any, otherwise the columns whose names mention a date keyword |
| DatasetReader.StatisticsCols | Codebase/AIRS-GSeet/read_custom_dataset.py:65-67 | statistics cover the first min(5, n) numeric columns |
| DatasetReader.Process | Codebase/AIRS-GSeet/read_custom_dataset.py:37-79 | no result iff no dataframe; the result keeps the dataframe |
| DatasetReader.ProcessedSelections | Codebase/AIRS-GSeet/read_custom_dataset.py:47-79 | the result's selections are the numeric, date and quality columns |
| DatasetReader.VigorNotInVigourIndex | Codebase/AIRS-GSeet/read_custom_dataset.py:60 | "vigor" does not occur in "vigour index" |
| DatasetReader.NoQualityKeywordInVigourIndex | Codebase/AIRS-GSeet/read_custom_dataset.py:59-61 | no quality keyword occurs in "vigour index" |
| DatasetReader.LowerNoCapitals | Codebase/AIRS-GSeet/read_custom_dataset.py:59 | lower-casing leaves a name without capitals unchanged |
| DatasetReader.LowerCapitalised | Codebase/AIRS-GSeet/read_custom_dataset.py:59 | lower-casing a capitalised name lowers only its first letter |
| DatasetReader.LowerVigourIndex | Codebase/AIRS-GSeet/read_custom_dataset.py:59 | "Vigour index" lower-cases to "vigour index" |
| DatasetReader.LowerGermination | Codebase/AIRS-GSeet/read_custom_dataset.py:59 | "Germination %" lower-cases to "germination %" |
| DatasetReader.GerminationInName | Codebase/AIRS-GSeet/read_custom_dataset.py:60 | "germination" occurs in "germination %" |
| DatasetReader.VigourIndexNotMatched | Codebase/AIRS-GSeet/read_custom_dataset.py:59-61 | the `Vigour index` column is not selected as a quality indicator |
| DatasetReader.NoKeywordNoMatch | Codebase/AIRS-GSeet/read_custom_dataset.py:59-61 | a name whose lower-case form contains no keyword is not selected |
| DatasetReader.GerminationMatched | Codebase/AIRS-GSeet/read_custom_dataset.py:59-61 | the `Germination %` column is selected as a quality indicator |

## Left out

- Thermal images (`generate_thermal`, data_generator.py:79-94): not part of
  this model.
- Network numerics: ResNet-50, the convolutions, the transformer encoder and
  the `MultiheadAttention` module are left out.
  - The attention module is declared but never used in `forward`.
  - Only their output shapes and the sigmoid output range are modelled.
  - The `hyperspectral_dim` setting is unused by the code as well.
- `ReduceLROnPlateau` and Adam: the learning-rate schedule is left out.
  - Optimiser steps are an opaque function of parameters, epoch and batch.
  - The losses the schedulers are stepped with are recorded.
- `r2_score`, accuracy, F1, ROC-AUC, RMSE and MAE: left out.
  - R² and accuracy enter the training loops as metric functions.
  - The test metrics after the prediction loops are not modelled.
- `train_test_split` and `DataLoader` batching / shuffling: left out.
  - Loaders are given as batch counts or as sequences of batches.
- `torch.save` and file output: left out.
  - A checkpoint is the epoch index recorded in the tracker's `saves`.
  - CSV files, figures, printing and reading Excel / CSV input are not
    modelled.
- Timestamps (`datetime`, `timedelta`) and pandas DataFrame assembly: left
  out.
  - The series are kept per unit or per sensor rather than concatenated.
  - The row count is stated instead.
- Distribution parameters of the draws (normal, exponential, log-normal) and
  numpy's stream order: left out.
  - Each draw is an input of the stated range.
  - `np.random.choice` without replacement is reduced to two distinct days
    in range.
- DataGen.WeatherRanges: takes the seasonal wave and the noise as given
  values with stated bounds; the normal and exponential draws behind them
  are not modelled.
- DataGen.SoilClipsInactive: takes the noise bounds as hypotheses; a normal
  draw can exceed them, and then the clip is active.
- Experiments.ArsLabel: it takes `log(ppb + 1)` as a non-negative input;
  the logarithm itself is not modelled.
- Experiments.GetItem: it takes a natural index; Python's negative indices
  are not modelled.
- DatasetReader.Lower: ASCII lower-casing only; Unicode case mapping is not
  modelled.
- DatasetReader: column names are strings; non-string column labels are
  not modelled.
- CustomResults.SummaryChanges: models the Change_% column only.
  - The Initial / Month_1 / Month_2 columns copy values and are not modelled.
  - NaN other than a missing pathogen reading is not modelled.
  - A division by zero is `None` here, where numpy yields inf or nan.
- Canopy.CanopyForwardShape: the ResNet branch accepts any RGB image here.
  Its own minimum-size constraints are not modelled.

## Findings

| source | as written | input that shows it | evidently intended | confidence | as-written member | corrected member |
|---|---|---|---|---|---|---|
| Codebase/AIRS-GSeet/src/experiments/generate_results.py:175-179 | `seed_labels['germination_rate'] * 0.7`, `1 - seed_labels['fungal_presence']` and `np.log(seed_labels['aflatoxin_ppb'] + 1)` apply arithmetic to the Python lists returned by `generate_hyperspectral_seed` (data_generator.py:140-180), which raises `TypeError` | any `n_samples`, e.g. the default 500: `[75.3, ...] * 0.7` | element-wise labels, `np.clip(0.7 * g + 30 * (1 - f), 0, 100)` and `np.clip(15 * log(ppb + 1), 0, 100)` on arrays | high (not executed) | Experiments.ShiLabelsAsWritten, Experiments.LabelsAsWrittenFail | Experiments.ShiLabels, Experiments.ArsLabels |

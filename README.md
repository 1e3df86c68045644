# Mental health prevalence estimator — a Dafny model

The application estimates how common symptoms of anxiety or depression are
in a person's demographic group. It then labels the estimate with a risk
tier and a templated recommendation. There are two estimators:

- The browser estimator, `calculatePrediction` in `docs/script.js`, starts
  from a base rate for the chosen indicator. It multiplies that rate by one
  factor per demographic field, adds a small random jitter and clamps the
  result to [8, 65].
- The Flask server, `app.py`, one-hot encodes the request into the feature
  vector a trained model expects (`create_feature_vector`). It then labels
  the model's number the same way (`predict`).

Signed-in users are kept in a Cloudant database by the `DatabaseManager`
class of `database.py`. It stores one document per user, merges repeated
sign-ins into that document and keeps a login history. `update_user_login`
keeps the last 50 entries; `save_user` appends without a bound. It also
reports user statistics.

Modules:

- `Wrappers` has the `Option` type.
- `Advice` has the tiers, the labels and the recommendation sentences. The
  browser and the server spell them identically.
- `Conditions` has the two rules that name the condition for an indicator:
  the browser's exact comparison and the server's substring tests.
- `ClientEstimator` models the browser estimator.
  - It is an imperative method on one running rate, split along the
    source's own sections.
  - It is proved equal to a reference definition: the base rate times ten
    multipliers, applied in order.
  - The two `Math.random()` draws are the parameters `r1` and `r2`, each in
    [0, 1).
- `ServerPredict` models the server.
  - The encoder is a method that updates a map step by step. It is proved
    equal to a reference vector.
  - The model's column set `FEATURE_NAMES` is a parameter, and so are its
    prediction and confidence.
- `UserDatabase` models the user store.
  - It is a class whose `docs` field is the database (documents by id) and
    whose `connected` field says whether `connect` succeeded.
  - The clock is the `now` parameter.

The example profile is an anxiety indicator, age 18-29, female, white, with
a degree and no optional fields. Its rate before the jitter is exactly
21.3 × 1.35 × 1.15 × 1.0 × 0.80 = 26.4546, and 63.49104 with a disability.
Without a disability it is High unless the jitter falls below -1.4546,
that is, unless the first draw is below 0.13635; it is then Moderate.

## Model

| member | source | states |
|---|---|---|
| Advice.TierThresholds | docs/script.js:175-186 | a prediction is Low below 15, Moderate in [15, 25) and High from 25 on, each boundary inclusive below and exclusive above |
| Advice.TierMonotone | app.py:121-133 | a larger prediction never gets a lower tier |
| Advice.ClassIsLowerCaseLevel | docs/script.js:176-186 | `risk_class` is always the lower-case form of `risk_level` |
| Advice.LevelNameInjective | app.py:122-133 | the three level names differ, so a level identifies its tier |
| Advice.RecommendationEmbedsCondition | docs/script.js:202-209 | a recommendation is its tier's lead, the condition name, then its tier's tail |
| Advice.LeadsDiffer | docs/script.js:203-209 | the three leads share the opening "Your demographic group shows " and then differ at the next character |
| Advice.RecommendationDetermines | app.py:125-133 | equal recommendations have equal tiers and equal condition names |
| Conditions.AnxietyConditionsAgree | app.py:114-116 | the substring rule labels "Symptoms of Anxiety Disorder" as anxiety |
| Conditions.DepressiveConditionsAgree | app.py:111-113 | the substring rule labels "Symptoms of Depressive Disorder" as depression |
| Conditions.EitherConditionsAgree | app.py:117-119 | the combined indicator fails both substring tests and falls through to "anxiety or depression" |
| Conditions.ConditionsAgree | docs/script.js:189-199 | on the three indicators the forms offer, the browser's exact comparison and the server's substring tests give the same condition |
| Conditions.ConditionsDiffer | app.py:111-119 | off those three the rules can differ: "Depressive Disorder" alone is depression on the server and the catch-all in the browser |
| ClientEstimator.LookupFound | docs/script.js:67-76 | a factor table yields a value exactly when it has an entry for the key, and the value is that entry's |
| ClientEstimator.NoEmptyKey | docs/script.js:67-76 | a table none of whose keys is "" yields no entry for "" |
| ClientEstimator.EmptyKeyAbsent | docs/script.js:67-166 | no factor table has an entry for "", the value of an unset select, so an unset field multiplies by 1.0 |
| ClientEstimator.AdjustedCompose | docs/script.js:76-166 | applying adjustments lo..mid and then mid..hi is applying lo..hi, in the estimator's order |
| ClientEstimator.ApplyDemographics | docs/script.js:66-102 | the age, sex, race/ethnicity and education steps multiply the rate by the first four reference factors |
| ClientEstimator.ApplyMajorFactors | docs/script.js:104-129 | the disability, gender identity and sexual orientation steps multiply by the next three factors |
| ClientEstimator.ApplySocialFactors | docs/script.js:131-166 | the marital, employment and state steps, each guarded by a truthy lookup, multiply by the last three factors |
| ClientEstimator.AdjustedRate | docs/script.js:54-166 | the indicator's base rate (22.5 by default, 21.3, 18.2 or 27.5) after all ten steps equals the reference rate `Rate` |
| ClientEstimator.Report | docs/script.js:168-225 | the returned object is the reference assessment: the prediction in [8, 65], the confidence in [92, 98), the inputs echoed |
| ClientEstimator.CalculatePrediction | docs/script.js:53-225 | the estimator returns the reference estimate, with the same bounds on the prediction and the confidence and the inputs echoed |
| ClientEstimator.ClampBounds | docs/script.js:173 | the clamp lands in [8, 65]: it leaves values inside alone and maps those below to 8 and those above to 65 |
| ClientEstimator.JitterBounds | docs/script.js:169-170 | a draw in [0, 1) moves the rate by at least -2 and by less than +2 |
| ClientEstimator.EstimateConsistent | docs/script.js:175-222 | in an estimate, the level is the tier of the prediction, the class is the lower-cased level, and the recommendation embeds the condition name |
| ClientEstimator.PredictionNearRate | docs/script.js:168-173 | for a rate in [10, 63] the prediction is within two points of the rate |
| ClientEstimator.JitterMonotone | docs/script.js:169-186 | a larger first draw never lowers the prediction or its tier |
| ClientEstimator.ConfidenceIndependent | docs/script.js:211-219 | the second draw changes only the confidence |
| ClientEstimator.DisabilityScales | docs/script.js:106-111 | a disability multiplier of 2.4 instead of 1.0 multiplies the adjusted rate by 2.4 |
| ClientEstimator.DisabilityMultiplies | docs/script.js:107-108 | "With disability" multiplies the rate before the jitter by exactly 2.4, compared with the field unset |
| ClientEstimator.KeepKnownNeutral | docs/script.js:76 | a value missing from a table has the same factor (1.0) as "" |
| ClientEstimator.NormalizeKeepsMultipliers | docs/script.js:66-166 | replacing every unrecognised value by "" changes none of the ten factors |
| ClientEstimator.SameFactorsSameEstimate | docs/script.js:53-225 | two profiles with the same indicator and the same factors get the same estimate, up to the echoed inputs |
| ClientEstimator.UnknownValuesAreNeutral | docs/script.js:66-166 | an unrecognised value in any demographic field gives the same estimate as leaving the field unset |
| ClientEstimator.ExampleRate | docs/script.js:55-102 | the example profile's rate before the jitter is 26.4546 |
| ClientEstimator.ExampleTier | docs/script.js:168-186 | the example is High exactly when the first draw is at least 0.13635, else Moderate |
| ClientEstimator.ExampleDisabilityRate | docs/script.js:106-111 | with a disability the example's rate is 63.49104 |
| ClientEstimator.ExampleDisabilityTier | docs/script.js:168-186 | with a disability the example is always High, and it hits the clamp at 65 exactly when the first draw is at least 0.87724 |
| ServerPredict.MarkGroup | app.py:38-72 | one grouping block switches on its group column when the value is truthy, and also its value column if the model has that column |
| ServerPredict.CreateFeatureVector | app.py:19-74 | the encoder's vector equals the reference vector `FeatureVector` |
| ServerPredict.FeatureColumns | app.py:24-31 | every model column is present, and the only extra columns are the time columns and the `Group_By` columns |
| ServerPredict.FeatureValues | app.py:24-31 | the time columns hold 2023, 6, 3 and 14, and every other column holds 0 or 1 |
| ServerPredict.GroupColumnsOn | app.py:38-72 | a `Group_By` column is on exactly when its value is truthy; the state column also needs a state other than "United States" |
| ServerPredict.ValueColumnsOn | app.py:33-72 | any other column is on exactly when the model has it and the selection names it |
| ServerPredict.IndicatorColumnOn | app.py:33-36 | the indicator's column is on whenever the model has it, including "Indicator_None" for a missing indicator |
| ServerPredict.OptionalFieldsIgnored | app.py:82-95 | the five optional fields never reach the encoder |
| ServerPredict.OptionalFieldsDefault | app.py:87-91 | an absent optional field is echoed as "" |
| ServerPredict.PredictFailsIffNoIndicator | app.py:111 | the handler fails exactly when the request has no indicator, because the substring test on None raises |
| ServerPredict.PredictLabels | app.py:121-157 | a success carries the tier of the model's number, its class, the recommendation embedding the condition, the model's confidence and the echoed inputs |
| ServerPredict.ServerAgreesWithClient | app.py:110-133 | given the browser's number for one of the three indicators, the server reproduces the browser's tier, class, condition and recommendation |
| UserDatabase.Trim | database.py:151-153 | a trimmed history is the last min(n, 50) entries of the history |
| UserDatabase.TrimIdempotent | database.py:151-153 | trimming twice is trimming once |
| UserDatabase.SaveFailsIffNoCreationTime | database.py:86-104 | `save_user` writes nothing exactly when the stored document lacks `created_at`, because that KeyError is caught |
| UserDatabase.FirstSignIn | database.py:65-83 | a first sign-in creates a document under its id (`sub`, else `email`, else "") with one login and a one-entry history |
| UserDatabase.RepeatedSignIn | database.py:86-92 | a repeated sign-in keeps `created_at`, counts one more login, appends one entry and takes the profile fields from the new data |
| UserDatabase.SaveDoesNotTrim | database.py:92 | `save_user` does not trim, so a 50-entry history grows to 51 |
| UserDatabase.RecordLoginHistory | database.py:136-153 | a login counts once more and appends its entry last; the history is the stored history plus the entry if that fits in 50, else the last 50 of those |
| UserDatabase.VerifiedAtMostTotal | database.py:255-257 | the verified count never exceeds the number of users |
| UserDatabase.ProviderCountsAreMultiplicities | database.py:251-253 | each provider's count is how many users have that provider (a missing one counts as "unknown"), so the counts add up to the number of users |
| UserDatabase.ListingIds | database.py:205-207 | a listing with distinct ids has as many ids as users |
| UserDatabase.ListingCoversAll | database.py:198-207 | when there are no more documents than the limit, the listing holds every stored document |
| UserDatabase.DatabaseManager.constructor | database.py:17-55 | the manager starts over the stored documents, connected or not as `connect` turned out |
| UserDatabase.DatabaseManager.GetUser | database.py:106-123 | returns the stored document exactly when connected and the id is stored |
| UserDatabase.DatabaseManager.SaveUser | database.py:57-104 | without a database nothing changes; otherwise the merged or new document is written under its id, or nothing when `created_at` is missing |
| UserDatabase.DatabaseManager.UpdateUserLogin | database.py:125-165 | a stored user's document becomes `RecordLogin` of it; a missing user or no database changes nothing |
| UserDatabase.DatabaseManager.GetUserByEmail | database.py:167-196 | returns a stored document with that email exactly when one exists |
| UserDatabase.DatabaseManager.GetAllUsers | database.py:198-214 | returns min(limit, #documents) stored documents, each once; [] without a database |
| UserDatabase.DatabaseManager.DeleteUser | database.py:216-235 | returns true exactly when the user was stored, and then removes only that document |
| UserDatabase.DatabaseManager.GetUserStats | database.py:237-279 | gives the statistics of a listing of at most 100 users; no result without a database |
| UserDatabase.TallyUsers | database.py:250-257 | the counting loop computes the per-provider counts and the verified count of its users |

## Left out

- The trained model, pandas and Flask are not modelled. The model's columns (`FEATURE_NAMES`) are a parameter, and its prediction and confidence are inputs. So is the `predict_proba` fallback to None.
- Request values are strings or absent. The model does not distinguish the other JSON types or null. The failure response's message text is not modelled: any exception is `Failure`.
- Floating point arithmetic is not modelled. Rates are exact reals, so the example rates are exact, for instance 26.4546 rather than its double rounding.
- `Math.random()` is not modelled either. Its two draws are parameters in [0, 1).
- JavaScript object keys inherited from `Object.prototype` (such as "constructor") are not modelled. Such a key would give a non-number factor.
- `static/script.js` and the page rendering (`displayResults`) are not part of this model.
- The Cloudant client, its credentials, the `email_index` creation and query ordering are not modelled.
  - `GetAllUsers` and `GetUserByEmail` return some valid listing or match, in an order the model leaves free.
  - Network and Cloudant exceptions are not modelled. The KeyError caught in `save_user` is modelled.
  - Revision numbers (`_rev`) and write conflicts are not modelled.
  - The model assumes every stored document is a user document, which is what the `type: "user"` selector requires.
- The clock is read several times in one call: three `utcnow()` calls in `save_user` (database.py:74-78) and two in `update_user_login` (database.py:137 and 145). Each call is modelled with a single `now`, so `last_login` and the new entry's timestamp are equal in the model.
- DatabaseManager.connected: the guards test `not self.db`, the truthiness of the database object, which follows its local document cache. The model reads that test as "`connect` succeeded" and does not model the cache.
- DatabaseManager.GetUserStats: `recent_logins` is not computed, because it depends on the clock and on date parsing.
- DatabaseManager.SaveUser: a stored document's fields outside the modelled set are not carried over. `save_user` drops them anyway, because it writes a fresh document.
- `close` is not modelled. It only disconnects the client.
- ClientEstimator.CalculatePrediction: its body is split into the section methods `ApplyDemographics`, `ApplyMajorFactors`, `ApplySocialFactors` and `Report`, so that each proof stays small. The steps and their order are the source's.

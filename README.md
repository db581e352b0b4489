# CardioRisk Pro — a Dafny model of its decision logic

CardioRisk Pro is a Streamlit dashboard: a doctor signs in against a Google
Sheet of `(email, bcrypt hash)` rows, enters a patient's vitals, and sees a
pre-trained classifier's ten-year cardiovascular risk on a coloured gauge;
a separate Insights page lists clinical risk factors. All of it lives in `app.py`. With
the page layout and the library calls stripped away, four pieces of logic
remain, and this project models and proves each of them:

- **Credential sheet and sign-in/registration** (`credential_store.dfy`,
  `auth.dfy`). The sheet is a sequence of rows. `find` becomes `Lookup`
  (first matching row), `update_cell` becomes `SetHash` and `append_row` is
  sequence append. bcrypt is a pair of functions, `hashPw` and `checkPw`.
  Two laws about them are stated as predicates and used only by lemmas:
  `Verifies` (a password checks against its own hash) and `Rejects` (no
  other password does).
- **Password reset** (`auth.dfy`, `otp.dfy`). The session fields `page`,
  `user`, `otp` and `reset_email`, together with the rows, are the fields of
  class `App`. Every button of the sign-in, registration and reset pages,
  and "Sign Out", is a method whose `modifies` clause names exactly the
  fields it may touch. The class invariant `Valid()`
  states two things. The dashboard is shown only to a registered,
  signed-in user. A pending code exists only on the reset page, has six
  digits, and belongs to a registered email. The six random digit draws
  and the bcrypt salt are parameters.
- **Clinical risk factors** (`risk_report.dfy`). There are four independent
  threshold rules on the raw feature vector. A counter records how many
  fire. The all-clear message appears exactly when none fires.
- **Form encoding and gauge bands** (`encoding.dfy`, `risk_report.dfy`).
  This covers the bounds of the number inputs, the codes of the gender
  radio, the ordinal sliders and the checkboxes, and the fixed order of the
  11 features. The encoding is proved lossless by an inverse decoder. The
  gauge colour splits the percentage into three bands that are exhaustive
  and exclusive.

Three behaviours of the code are worth knowing:
- The number inputs bound age to 30–100, height to 100–250, weight to
  30–200, systolic pressure to 90–200 and diastolic pressure to 60–150
  (app.py:452-463).
- Stage 2 of the reset flow has no minimum password length, unlike
  registration (`ResetSkipsLengthRule`).
- Cancel clears the code but leaves `reset_email` set (`Auth.App.CancelReset`).

## Model

| member | source | states |
|---|---|---|
| `CredentialStore.Lookup` | app.py:128-129 | `find` returns None exactly when no row holds the email. Otherwise it returns a row that holds it, and no earlier row does. |
| `CredentialStore.SetHash` | app.py:241-242 | `update_cell(row, 2, h)` keeps the row count, gives the chosen row hash `h` with its email unchanged, and leaves every other row as it was. |
| `CredentialStore.StoredHash` | app.py:132 | The hash read for a registered email is the hash of the first row holding that email: no earlier row holds it. |
| `CredentialStore.LookupAppendNew` | app.py:172-177 | After appending a row for an email not yet present, `find` returns that new last row. |
| `CredentialStore.LookupAppendOther` | app.py:177 | Appending a row does not change the lookup of any email already present. |
| `CredentialStore.LookupSetHash` | app.py:241-242 | Rewriting a hash changes no email's lookup. |
| `CredentialStore.AppendNewKeepsUnique` | app.py:172-177 | Appending only emails that are not yet present keeps emails unique across the sheet. |
| `Otp.GenerateOtp` | app.py:103-104 | The code is six characters, each a decimal digit, and the i-th character is the digit of the i-th draw. |
| `Otp.DigitPicks` | app.py:104 | The digits of a six-digit code are valid draws from `string.digits`. |
| `Otp.EveryCodeIsIssuable` | app.py:104 | Every six-digit string is issued by the draws `DigitPicks` names. |
| `Otp.GenerateOtpInjective` | app.py:104 | Distinct draws give distinct codes. |
| `Auth.LoginCheck` | app.py:128-138 | Sign-in gives "User not found" exactly when the email is unregistered. It succeeds exactly when the email is registered and `checkpw` accepts the password against the stored hash. Otherwise it gives "Incorrect Password". |
| `Auth.RegisterCheck` | app.py:165-177 | A mismatch is reported whenever the two passwords differ, before anything else. "Too short" needs a matching password shorter than 4. "User exists" and "account created" need a matching password of at least 4 and are decided only by whether the email is registered. |
| `Auth.ResetCheck` | app.py:229-238 | A password mismatch is reported whenever the two passwords differ, even if the code is also wrong. "Invalid OTP" means the passwords match and the code differs. Success means both match. |
| `Auth.App.constructor` | app.py:107-109 | A new session is on the login page with no user, no code and no reset email, and it satisfies `Valid()`. |
| `Auth.App.Login` | app.py:125-140 | The notice is `LoginCheck`'s. Only on success does the page become the dashboard and the user become the email. On failure nothing changes, and the frame keeps code, reset email and rows. |
| `Auth.App.Register` | app.py:164-181 | The notice is `RegisterCheck`'s. Only on success is exactly one row `[email, hashpw(password, salt)]` appended and the page set to login. Otherwise rows and page are unchanged. A sheet without duplicate emails stays without them. |
| `Auth.App.SendCode` | app.py:198-214 | Runs only while no code is pending. A code is issued exactly when the email is registered. The code is `GenerateOtp` of the draws and the reset email is that email. An unknown email changes nothing. |
| `Auth.App.UpdatePassword` | app.py:228-250 | The notice is `ResetCheck`'s. On success only the hash of the reset email's first row is rewritten, code and reset email are cleared, and the page becomes login. Either failure leaves rows, code, reset email and page as they were. |
| `Auth.App.CancelReset` | app.py:252-255 | Cancel clears the code and returns to login. The frame shows that it touches nothing else, so the reset email stays set. |
| `Auth.App.OpenForgotPassword` | app.py:145-147 | Leaving the login page for the reset page always starts at stage 1, because no code is pending. |
| `Auth.App.OpenRegister` | app.py:149-151 | "Create Account" shows the registration page and keeps `Valid()`. |
| `Auth.App.BackToLogin` | app.py:185-187 | "Back to Login" shows the login page and keeps `Valid()`. |
| `Auth.App.SignOut` | app.py:435-438 | Sign-out returns to login and clears the user. |
| `Auth.RegisterThenLogin` | app.py:176-177 | After a successful registration, sign-in with the chosen password succeeds. If bcrypt has no collisions, every other password is refused. |
| `Auth.SecondRegistrationRefused` | app.py:172-174 | Registering an email already in the sheet, with a confirmed password of at least 4 characters, is refused as "User already exists". |
| `Auth.RegisterKeepsOtherLogins` | app.py:177 | A registration does not change any other user's sign-in outcome. |
| `Auth.ResetThenLogin` | app.py:239-242 | After a reset, the user signs in with the new password. If bcrypt has no collisions, the old password no longer works. Every other user's sign-in is unaffected. |
| `Auth.ResetSkipsLengthRule` | app.py:229-238 | A password that registration refuses as too short is accepted by the reset flow. |
| `Encoding.GenderCode` | app.py:453 | The code is 1 exactly for "Female" and 2 otherwise. For a radio option it is the option's 1-based position. |
| `Encoding.LevelCode` | app.py:476-477 | A label has a code exactly when it is a slider option. The code is in 1..3 and is the option's 1-based position. |
| `Encoding.CheckboxCode` | app.py:472-474 | A checkbox is encoded as 0 or 1, with 1 exactly when ticked. |
| `Encoding.Features` | app.py:483 | The feature vector has exactly 11 slots. |
| `Encoding.DecodeFeatures` | app.py:483 | Whatever form a vector decodes to has slider values among the options and encodes back to exactly that vector, so the vector order of app.py:483 can be read back. |
| `Encoding.DecodeEncode` | app.py:483 | Decoding the feature vector gives back the form, so the order `[age, gender, height, weight, ap_hi, ap_lo, chol, gluc, smoke, alco, active]` loses nothing. |
| `Encoding.EncodeDecode` | app.py:483 | Every decodable vector is the encoding of the form it decodes to. |
| `Encoding.FeaturesInRange` | app.py:452-477 | A form within the input bounds (age 30–100, height 100–250, weight 30–200, systolic 90–200, diastolic 60–150) encodes into the feature box. That box has those ranges, gender in {1,2}, levels in 1..3 and flags in {0,1}. |
| `Encoding.RangeIsReachable` | app.py:452-477 | Every vector in the feature box is the encoding of some form the widgets can hold. |
| `Encoding.InitialFormEncoding` | app.py:452-474 | The form as first shown is within bounds and encodes to `[50,1,165,65,120,80,1,1,0,0,0]`. |
| `Encoding.LevelCodeMonotone` | app.py:466-477 | The ordinal codes keep the slider order. |
| `RiskReport.IdentifyRiskFactors` | app.py:313-324 | A warning is listed exactly when its rule holds: systolic > 140, diastolic > 90, cholesterol code > 1, weight > 100. Warnings are listed once each, in report order. The count equals the number listed and lies in 0..4. The all-clear message appears exactly when the count is 0, which is exactly when no rule holds. |
| `RiskReport.RulesOnForm` | app.py:293-321 | On an encoded form each warning tests the field the encoder wrote into the slot it reads: systolic > 140, diastolic > 90, cholesterol slider not on "Normal", weight > 100. |
| `RiskReport.InitialFormIsAllClear` | app.py:313-324 | The form as first shown raises no warning. |
| `RiskReport.Band` | app.py:260 | The bands are exhaustive and exclusive: low below 30, moderate from 30 to below 70, high from 70. |
| `RiskReport.GaugeColor` | app.py:260 | The gauge colour is the colour of the percentage's band. It is one of the three hex colours. |
| `RiskReport.BandMonotone` | app.py:260 | A higher percentage never gets a milder band. |
| `RiskReport.GaugeColorDeterminesBand` | app.py:260 | Two percentages have the same colour exactly when they are in the same band. |
| `RiskReport.RiskPercent` | app.py:488 | The class-1 probability times 100 lies in 0..100. It is in the low band exactly when the probability is below 0.3, and in the high band exactly when it is at least 0.7. |
| `RiskReport.VerdictOf` | app.py:499-505 | "High Risk Detected" is shown exactly when the predicted label is 1. |

## Left out

- Page layout, CSS, widgets, and the `st.rerun` / `st.stop` control flow are UI. Only the state changes they trigger are modelled.
- The Streamlit widgets are not modelled; only what they can hold is. The number inputs are bounds (`WidgetValues`), and the radio and sliders yield one of their options.
- The Google Sheet connection and the pickle load are I/O. Their failures are not modelled: the `except` branches that show "Login Error" and "Error", and the stop when the sheet or model is unavailable.
- `send_otp_email` (app.py:87-101) is never called. The code is shown on the reset page instead (app.py:221); that display is UI and is not modelled.
- "Analyze Risk Profile" (app.py:480-490) stores `last_features`, `last_prob` and `last_pred` in the session. These fields are not modelled. "Sign Out" does not clear them, so the next sign-in in the same browser session sees the previous patient's result; the model does not capture this.
- `RiskPercent`: the product is an exact real, not a rounded float64. At the 30 and 70 edges the model and the code can therefore place a probability in different bands. For example, the float64 nearest 0.3 gives exactly 30.0 in the code (amber) but just under 30 in the model (green).
- `CredentialStore.Lookup`: the real `sheet.find` searches every cell, including the hash column and the header row. Here it is a search of the email column only.
- `CredentialStore.Rejects`: real bcrypt truncates passwords at 72 bytes. Two passwords that agree on their first 72 bytes therefore collide, so this law is an idealisation. It is used only by the lemmas about the old or another password.
- bcrypt internals and salt generation are left out. `hashpw` and `checkpw` are function parameters and `gensalt()` is a salt parameter.
- `random.choices` is modelled by the six draws it returns. `time.sleep` is left out.
- `model.predict` and `predict_proba` are an opaque pre-trained classifier. Their outputs are parameters of `VerdictOf` and `RiskPercent`.
- The Plotly figures and the hard-coded metrics, confusion matrix and feature importances are display data.
- The header-repair CLI in register.py is not part of this model. It is I/O, and its append (register.py:25-29) has none of `Auth.App.Register`'s guards: no confirmation, no length rule, no duplicate check. It is one way duplicate emails reach the sheet, which is why `Lookup` and `StoredHash` take the first matching row.
- `Auth.App.Register`: all browser sessions and register.py share one sheet, but the model has one session alone with it. Interleaved registrations are not captured. If two sessions both pass `sheet.find` (app.py:172) before either reaches `append_row` (app.py:177), the same email ends up in two rows. The promise that a sheet without duplicate emails stays without them holds only for one session acting alone.
- The SQLite listing in view_user.py is not part of this model. It is I/O.
- Streamlit keeps the `user` key absent until the first sign-in, and the model starts from `None`. Only the dashboard greeting (app.py:431) reads it, and the dashboard is reached only through app.py:134-135, which sets `user` at the same time, so the difference cannot be seen.

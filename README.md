# Text generation admission in the AI Horde (KoboldAI API)

This project is a Dafny model of the request logic behind the AI Horde's
text-generation endpoints in `horde/apis/v2/kobold.py`. It covers:

- how `TextAsyncGenerate` applies a style to a request: a single style, or
  one member of a style collection. The style's prompt template is expanded
  with a subset of Python's `str.format_map`, and the style's params,
  models and nsfw flag replace the request's;
- how it creates the waiting prompt and prices the job. The price follows
  the dearest of the requested models, rounded to hundredths the way
  Python's `round` does;
- how it decides admission: against a shared key's kudos budget, the
  user's balance when kudos are needed up front, and the shared key's job
  limits, with a bypass for a style that carries the same key;
- the response `post` returns, the extra-source-images check of `validate`,
  and the payload `get_hashed_params_dict` hashes;
- cancelling a request (`TextAsyncStatus.delete`) and the kudos transfer
  from the KoboldAI Horde (`KoboldKudosTransfer.post`).

Modules:

- `Exceptions`: Option, Result and the typed errors.
- `PyRound`: Python's `round` on exact reals.
- `FormatMap`: the format-string subset, with its parser, its printer and
  the substitution.
- `KoboldParams`: params dictionaries, the params after a style, and the
  hash payload.
- `Accounts`: the user record.
- `WaitingPrompt`: the fields of a text waiting prompt that the endpoints
  touch.
- `TextAdmission`: the required kudos and the admission decision, as
  functions.
- `TextGenerate`: the `Style`, `StyleCollection` and `TextAsyncGenerate`
  classes, whose methods update state in place as the handler does.
- `TextStatus`: cancellation.
- `KudosTransfer`: the transfer endpoint.

The database, the model multiplier table, `require_upfront_kudos`, the
shared key's limit check, `get_status` and `hash_dictionary` are not
modelled. Their results enter as parameters.

Two behaviours of the code are worth noting. The model follows the code in
both:

- Cancelling a request only sets the waiting prompt's `n` to 0. The code
  has no separate cancelled state.
- When a style collection has no styles, `colstyles[0]` raises an
  IndexError. This happens after the collection's use count has already
  been increased. The model returns `EmptyStyleCollection` at that point.

## Model

| member | source | states |
|---|---|---|
| TextAdmission.MaxMultiplierIsBound | horde/apis/v2/kobold.py:115-124 | the running maximum is at least 0, at least every requested model's multiplier, and is either 0 or one of those multipliers |
| TextAdmission.HighestMultiplier | horde/apis/v2/kobold.py:115-124 | the loop ends with the running maximum (start at 0, replace only by a strictly larger multiplier), which bounds every model's multiplier from above |
| TextAdmission.MaxMultiplierOfSublist | horde/apis/v2/kobold.py:119-124 | the maximum depends only on which models are listed: a list whose models all occur in another has a maximum no larger |
| TextAdmission.ComputeRequiredKudos | horde/apis/v2/kobold.py:115-125 | the kudos computed by the code equal the reference price: 20 per unit with no models, otherwise the rounded unit price of the dearest model times n; never negative |
| TextAdmission.RequiredKudosWithoutModels | horde/apis/v2/kobold.py:116-117 | with an empty model list the price is exactly 20 * n |
| TextAdmission.RequiredKudosCoversEveryModel | horde/apis/v2/kobold.py:115-125 | the price of a list is at least the price of any one of its models alone, and equals the price of one of them |
| TextAdmission.AddedModelNeverLowersPrice | horde/apis/v2/kobold.py:119-125 | inserting a model anywhere in a non-empty list never lowers the price; inserting one no dearer than the dearest leaves it unchanged (the list must be non-empty: see the next row) |
| TextAdmission.ExampleOneModelBelowFlatRate | horde/apis/v2/kobold.py:116-125 | naming one cheap model can cost less than naming none: multiplier 1 at 80 tokens costs about 3.81 kudos against the flat 20 |
| TextAdmission.InsertedCheaperKeepsMax | horde/apis/v2/kobold.py:121-124 | inserting a model no dearer than the dearest leaves the highest multiplier unchanged |
| TextAdmission.UnitPriceMonotone | horde/apis/v2/kobold.py:125 | a larger multiplier never gives a smaller rounded unit price |
| TextAdmission.UnitPriceNonnegative | horde/apis/v2/kobold.py:125 | a non-negative multiplier gives a non-negative rounded unit price |
| TextAdmission.PriceMonotone | horde/apis/v2/kobold.py:125 | a larger multiplier never gives a smaller price for n units |
| TextAdmission.Admit | horde/apis/v2/kobold.py:127-162 | the key-budget rejection (with the exact price and rc SharedKeyInsufficientKudos) happens iff the key has a budget below the price and downgrading is not possible; an unlimited key (-1) is never a reason; the user-balance rejection happens iff kudos are needed up front, the balance is short, no downgrade is possible and the key did not already reject; the job-limit BadRequest with the key's message happens iff a key is present, its limit fails, the applied style does not carry the same key and no earlier rejection happened; an admitted job carries the priority flag iff the key budget was short, and a downgrade to the policy's tokens iff the user's balance was short |
| TextAdmission.AdmitByStages | horde/apis/v2/kobold.py:127-162 | the decision equals the staged reading of the code: key-budget rejection, then user-balance rejection, then job-limit rejection, otherwise admission with the priority flag and the downgrade the shortfalls call for |
| TextAdmission.UserBalanceIrrelevantWithoutUpfront | horde/apis/v2/kobold.py:139-151 | when kudos are not needed up front, changing the user's balance changes nothing in the decision |
| TextAdmission.RicherUserAdmitted | horde/apis/v2/kobold.py:139-162 | a user with at least as many kudos is never rejected for kudos where a poorer one was admitted, whatever the job-limit check then says (a downgrade of the poorer job can change what that check sees); when the poorer job was not downgraded, the richer user gets exactly the same decision |
| TextAdmission.LargerKeyBudgetAdmitted | horde/apis/v2/kobold.py:127-138 | raising a shared key's budget never turns an admission into a rejection |
| TextAdmission.CheaperModelKeepsDecision | horde/apis/v2/kobold.py:119-162 | adding a model no dearer than the dearest listed leaves the whole decision unchanged |
| TextAdmission.ExampleHighestMultiplierPrices | horde/apis/v2/kobold.py:115-125 | models with multipliers 2 and 5 and 210 tokens cost 50 kudos: the dearer model sets the price |
| TextAdmission.ExampleSharedKeyRejects | horde/apis/v2/kobold.py:127-138 | a key with 30 kudos and a 50-kudos request without downgrade is rejected with an error carrying 50 |
| TextGenerate.TextAsyncGenerate.InitiateWaitingPrompt | horde/apis/v2/kobold.py:95-162 | the waiting prompt is created from the handler's models, prompt, params, user and shared key, and keeps the requested n and max_length unless it is downgraded; the outcome is the reference decision on the handler's state, with the shared key's limit check applied to the waiting prompt's max_length as it is after a possible downgrade; the job is deleted exactly when it is rejected; it is downgraded (once, to the policy's tokens) exactly when downgrading is possible and the user's balance is short; the priority flag is raised exactly when downgrading is possible and the key's budget is short; the prompt, models, params, style, nsfw flag, style kudos and warnings are unchanged |
| PyRound.RoundHalfEven | horde/apis/v2/kobold.py:85-89 | `round(x)`: an integer within 1/2 of x, and an even one on a tie |
| PyRound.RoundHalfEvenNearest | horde/apis/v2/kobold.py:85-89 | an integer strictly closer than 1/2 to x is the rounded value |
| PyRound.RoundHalfEvenMonotone | horde/apis/v2/kobold.py:85-89 | rounding never reverses an order |
| PyRound.RoundHundredths | horde/apis/v2/kobold.py:125 | `round(x, 2)`: a whole number of hundredths within 0.005 of x, and an even number of hundredths on a tie |
| PyRound.RoundHundredthsIsHundredths | horde/apis/v2/kobold.py:125 | the result is a whole number of hundredths |
| PyRound.RoundHundredthsOfHundredths | horde/apis/v2/kobold.py:125 | a value with at most two decimals is unchanged |
| PyRound.RoundHundredthsMonotone | horde/apis/v2/kobold.py:125 | rounding to hundredths never reverses an order |
| FormatMap.FormatMapPrompt | horde/apis/v2/kobold.py:204 | the expansion fails with a format error exactly when the template does not parse |
| FormatMap.ExampleClosingBracketInName | horde/apis/v2/kobold.py:202-204 | a `]` with no `[` before it is part of a field name: `{a]}` expands to the empty string |
| FormatMap.ParseUnparse | horde/apis/v2/kobold.py:204 | a template of characters and named fields, written out with `{{`/`}}` escapes, parses back to itself |
| FormatMap.UnparseParse | horde/apis/v2/kobold.py:204 | a string that parses is exactly the written-out form of its pieces, and every field it contains has a non-positional name |
| FormatMap.FormatMapOfUnparse | horde/apis/v2/kobold.py:202-204 | every written-out template expands to the reference substitution: `{p}` becomes the prompt and every other named field the empty string |
| FormatMap.PlainTextUnchanged | horde/apis/v2/kobold.py:204 | a template without braces expands to itself |
| KoboldParams.StyledParams | horde/apis/v2/kobold.py:205-207 | the new params have the style's keys plus "n"; "n" is the request's value, or 1 when the request had none; every other key has the style's value |
| KoboldParams.HashPayload | horde/apis/v2/kobold.py:180-184 | the payload has the params' keys plus "models"; "models" is the request's model list; every other key keeps its value |
| KoboldParams.HashPayloadIgnoresModelsEntry | horde/apis/v2/kobold.py:180-187 | two params dictionaries give the same hashed payload exactly when they agree on every key but "models" |
| KoboldParams.HashPayloadSeparatesModels | horde/apis/v2/kobold.py:182-184 | requests with different model lists hash different payloads |
| TextGenerate.TextAsyncGenerate.HashedParamsDict | horde/apis/v2/kobold.py:180-187 | the hash is taken of a copy of the params with "models" set to the request's model list; the handler's params are not changed |
| TextGenerate.CheckExtraSourceImages | horde/apis/v2/kobold.py:177-178 | the error is raised exactly when extra source images are given and the list is non-empty, with rc InvalidExtraSourceImages. |
| TextGenerate.PostResponse | horde/apis/v2/kobold.py:84-93 | the kudos are `round(kudos)`: within 1/2, a tie going to the even integer; a dry run gives status 200 and no id; otherwise status 202 and the waiting prompt's id; the warning is present exactly when the request is not a dry run, no worker can take it and raid mode is off |
| TextGenerate.TextAsyncGenerate.ApplyStyle | horde/apis/v2/kobold.py:189-214 | the error raised is determined by the requested style and the one finally applied; no style: nothing changes; a non-text style: StyleMismatch; an empty collection: counted once, then EmptyStyleCollection; in both failures the prompt, models, params, nsfw flag and style kudos are unchanged, and a mismatch changes no use count; a template that does not parse leaves everything but the models, the applied style (the chosen member) and a collection's count unchanged, style kudos and the use counts of the styles included; on success the applied style is the single style or a member of the collection, and it supplies the models, the expanded prompt, the params with "n" kept, and nsfw; a collection and the applied style are each counted once and no other member is; style kudos are set when the style's owner is another user; the warnings and the waiting prompt are never touched |
| TextGenerate.TextAsyncGenerate.ApplyResolvedStyle | horde/apis/v2/kobold.py:201-212 | the models are replaced first; when the template does not parse, only the models have changed; otherwise the prompt is the expansion, the params keep the request's "n", nsfw is the style's and the style's use count goes up by one; the warnings and the waiting prompt are never touched |
| TextGenerate.TextAsyncGenerate.Validate | horde/apis/v2/kobold.py:170-178 | the error is the first of the style's, the inherited validation's, the parameter validator's and the extra-images check's, in that order; with no style the prompt is the arguments' and the models, params, style, nsfw flag and style kudos are unchanged; with a style that applies, the applied style resolves the requested one and supplies the models, the prompt expanded from the arguments' prompt, the params with "n" kept and nsfw, it is counted once and style kudos are set when its owner is another user; a non-text style changes no use count, a text collection is counted once, and when the style applies no member but the applied one is counted; success stores the validator's warnings, and an earlier failure leaves them unchanged |
| TextStatus.Delete | horde/apis/v2/kobold.py:276-300 | an unknown id gives RequestNotFound; otherwise the result is the status taken before the change, and afterwards the waiting prompt differs only in n, which is 0 |
| TextStatus.DeleteTwice | horde/apis/v2/kobold.py:276-300 | cancelling twice succeeds both times; the second status shows n = 0, and the waiting prompt ends as after one cancellation |
| KudosTransfer.Post | horde/apis/v2/kobold.py:428-442 | a caller other than 167.86.124.45 gets Access Denied and nothing changes; an unknown user gives UserNotFound; otherwise the kudos grow by the amount, the response carries the new kudos, trust is granted when requested and is never revoked |

## Left out

- Flask and flask-restx plumbing is left out: argument parsers, `marshal_with`, limiter decorators and caching. These handle transport and rate limiting, not logic.
- Logging, the stats endpoints and the worker pop/submit endpoints are left out. The logic of the pop/submit endpoints lives in templates that are not part of this model, and their point is concurrency.
- Every database call (`count_active_workers`, `retrieve_totals`, `wp_has_valid_workers`, the lookups by id) becomes an input. `db.session.commit` and rollback are left out.
- `get_text_model_multiplier` is the parameter `multiplier`.
- `require_upfront_kudos` is the input `UpfrontPolicy`.
- `is_job_within_limits` is the input `limitFor`, a function of the waiting prompt's `max_length` applied after a possible downgrade. Its body is not part of this model.
- WaitingPrompt.TextWaitingPrompt.Downgrade: records the call only. Its effect on `n` and `max_length` is left unconstrained, because the body of `downgrade` is not part of this model.
- WaitingPrompt.TextWaitingPrompt.Delete: only marks the job deleted. Removing the row from the database is not modelled.
- The rest of the `TextWaitingPrompt` constructor is not modelled: workers, softprompt, trust flags, blacklist, IP address, webhook and proxied account. How it derives `n` and `max_length` from the params is not modelled either; both are inputs.
- `get_status` is the parameter `getStatus`, applied to a snapshot of the waiting prompt.
- `hash_dictionary` is the parameter `hash`.
- `ParamValidator` enters as its result, `paramCheck`.
- The inherited `GenerateTemplate.validate` and `GenerateTemplate.apply_style` enter as their results: `baseError`, and the resolved style.
- `record_style` is not modelled: the style owner's record and the `db.session.commit` after applying a style are left out.
- `modify_kudos` is modelled as adding the amount. `set_trusted` is modelled as setting the flag to true. Neither body is part of this model.
- Floating point is modelled as exact real arithmetic. `round` is the round-half-even of the exact value, so binary-float artefacts of `round(x, 2)` are not modelled.
- `random.shuffle` is a free choice of one member of the collection. The reordering of the collection's list in place is not modelled.
- FormatMapPrompt: models only part of Python's format language: literal text, `{{`/`}}` escapes and named fields. A field containing `[`, `.`, `!`, `:` or `{` (an index, an attribute, a conversion, a format spec or a nested field) yields `OutsideSubset`, although Python expands some of these. Field names made of non-ASCII Unicode decimal digits are treated as named rather than positional.
- The username in `KudosUpfront` and the text of its message are not modelled. The error carries the required kudos and the rc.
- The transfer endpoint parses its arguments after the user lookup. The model takes them already parsed, so a malformed body is not modelled.
- `StyleMismatchError` carries "StyleMismatch" as its rc. `e.BadRequest(...)` at kobold.py line 195 passes it as the second positional argument, and `horde.exceptions` is not part of this model, so that this slot is the rc is an assumption.

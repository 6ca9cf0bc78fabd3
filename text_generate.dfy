/** `TextAsyncGenerate`: the request handler behind the asynchronous text
    generation endpoint. It applies a style to the request, validates it,
    creates the waiting prompt and decides admission, and builds the response.
    The parts inherited from `GenerateTemplate` (argument parsing, the style
    lookup, the generic validation) are not part of this model; their results
    enter as parameters. */
module TextGenerate {
  import opened Exceptions
  import opened PyRound
  import opened FormatMap
  import opened KoboldParams
  import opened Accounts
  import opened WaitingPrompt
  import opened TextAdmission

  /** A single style. Only its use count changes here. */
  class Style {
    const styleType: string
    const userId: string
    const prompt: string
    const params: Params
    const modelNames: seq<string>
    const nsfw: bool
    const sharedKeyId: Option<string>
    var useCount: nat

    constructor (styleType: string, userId: string, prompt: string, params: Params,
                 modelNames: seq<string>, nsfw: bool, sharedKeyId: Option<string>)
      ensures this.styleType == styleType && this.userId == userId && this.prompt == prompt
      ensures this.params == params && this.modelNames == modelNames && this.nsfw == nsfw
      ensures this.sharedKeyId == sharedKeyId && useCount == 0
    {
      this.styleType := styleType;
      this.userId := userId;
      this.prompt := prompt;
      this.params := params;
      this.modelNames := modelNames;
      this.nsfw := nsfw;
      this.sharedKeyId := sharedKeyId;
      useCount := 0;
    }
  }

  /** A style collection: a list of styles, one of which is applied. */
  class StyleCollection {
    const styleType: string
    const styles: seq<Style>
    const sharedKeyId: Option<string>
    var useCount: nat

    constructor (styleType: string, styles: seq<Style>, sharedKeyId: Option<string>)
      ensures this.styleType == styleType && this.styles == styles
      ensures this.sharedKeyId == sharedKeyId && useCount == 0
    {
      this.styleType := styleType;
      this.styles := styles;
      this.sharedKeyId := sharedKeyId;
      useCount := 0;
    }
  }

  /** `self.existing_style`: a style or a collection. */
  datatype ExistingStyle = Single(style: Style) | Collection(collection: StyleCollection)

  function StyleType(es: ExistingStyle): string {
    match es
    case Single(s) => s.styleType
    case Collection(c) => c.styleType
  }

  /** The objects whose use counts applying the style may change. */
  function StyleObjects(style: Option<ExistingStyle>): set<object> {
    match style
    case None => {}
    case Some(Single(s)) => {s}
    case Some(Collection(c)) => {c} + set i | 0 <= i < |c.styles| :: c.styles[i]
  }

  /** The styles `apply_style` may end up applying. */
  predicate Resolves(es: ExistingStyle, chosen: Style) {
    match es
    case Single(s) => chosen == s
    case Collection(c) => chosen in c.styles
  }

  /** The id of the shared key of the applied style, if any (kobold.py line 160). */
  function StyleKeyId(style: Option<ExistingStyle>): Option<string>
  {
    match style
    case None => None
    case Some(Single(s)) => s.sharedKeyId
    case Some(Collection(c)) => c.sharedKeyId
  }

  const StyleMismatchError: HordeError :=
    BadRequest("Image styles cannot be used on image requests", Some("StyleMismatch"))

  const ExtraSourceImagesError: HordeError :=
    BadRequest("This request type does not accept extra source images.", Some("InvalidExtraSourceImages."))

  /** The extra-source-images check at the end of `validate` (kobold.py lines 177-178). */
  function CheckExtraSourceImages(images: Option<seq<string>>): (r: Option<HordeError>)
    ensures r.Some? <==> images.Some? && |images.value| > 0
    ensures r.Some? ==> r.value == ExtraSourceImagesError
  {
    if images.Some? && |images.value| > 0 then Some(ExtraSourceImagesError) else None
  }

  /** The error `apply_style` raises, if any, given the requested style and
      the style it ended up applying (`applied`, a member of a collection). */
  function AppliedStyleError(style: Option<ExistingStyle>, applied: Option<ExistingStyle>, prompt: string)
    : Option<HordeError>
  {
    if style.None? then None
    else if StyleType(style.value) != "text" then Some(StyleMismatchError)
    else if style.value.Collection? && style.value.collection.styles == [] then Some(EmptyStyleCollection)
    else if applied.Some? && applied.value.Single? then
      var expanded := FormatMapPrompt(applied.value.style.prompt, prompt);
      if expanded.Err? then Some(expanded.error) else None
    else None
  }

  /** The error `validate` raises, if any: the first of the style's, the
      inherited validation's, the parameter validator's and the extra-images
      check's. */
  function ValidationError(styleError: Option<HordeError>, baseError: Option<HordeError>,
                           paramCheck: Result<seq<string>>, extraSourceImages: Option<seq<string>>)
    : Option<HordeError>
  {
    if styleError.Some? then styleError
    else if baseError.Some? then baseError
    else if paramCheck.Err? then Some(paramCheck.error)
    else CheckExtraSourceImages(extraSourceImages)
  }

  /** `get_size_too_big_message()`. */
  const SizeTooBigMessage: string :=
    "Warning: No available workers can fulfill this request. It will expire in 20 minutes. "
    + "Consider reducing the amount of tokens to generate."

  /** The body and status code `post` returns. */
  datatype AsyncResponse = AsyncResponse(id: Option<string>, kudos: int, message: Option<string>, status: int)

  /** The response of `post` (kobold.py lines 84-93): a dry run reports only the kudos;
      otherwise the id and the kudos, and a warning exactly when no worker can
      take the job and raid mode is off. */
  function PostResponse(dryRun: bool, wpId: string, kudos: real, hasValidWorkers: bool, raidMode: bool)
    : (r: AsyncResponse)
    ensures kudos - 0.5 <= r.kudos as real <= kudos + 0.5
    ensures r.kudos == RoundHalfEven(kudos)
    ensures r.status == (if dryRun then 200 else 202)
    ensures r.id.Some? <==> !dryRun
    ensures r.id.Some? ==> r.id.value == wpId
    ensures r.message.Some? <==> !dryRun && !hasValidWorkers && !raidMode
    ensures r.message.Some? ==> r.message.value == SizeTooBigMessage
  {
    var rounded := RoundHalfEven(kudos);
    if dryRun then AsyncResponse(None, rounded, None, 200)
    else
      var message := if !hasValidWorkers && !raidMode then Some(SizeTooBigMessage) else None;
      AsyncResponse(Some(wpId), rounded, message, 202)
  }

  class TextAsyncGenerate {
    const user: User
    const sharedKey: Option<SharedKey>
    /** The model list of the request's arguments (`self.args.models`). */
    const argsModels: seq<string>
    var prompt: string
    var models: seq<string>
    var params: Params
    var nsfw: bool
    var existingStyle: Option<ExistingStyle>
    var styleKudos: bool
    var warnings: seq<string>
    var downgradeWpPriority: bool
    var wp: TextWaitingPrompt?

    constructor (user: User, sharedKey: Option<SharedKey>, argsModels: seq<string>, params: Params, nsfw: bool)
      ensures this.user == user && this.sharedKey == sharedKey && this.argsModels == argsModels
      ensures models == argsModels && this.params == params && this.nsfw == nsfw
      ensures prompt == "" && existingStyle.None? && !styleKudos && warnings == []
      ensures !downgradeWpPriority && wp == null
    {
      this.user := user;
      this.sharedKey := sharedKey;
      this.argsModels := argsModels;
      models := argsModels;
      this.params := params;
      this.nsfw := nsfw;
      prompt := "";
      existingStyle := None;
      styleKudos := false;
      warnings := [];
      downgradeWpPriority := false;
      wp := null;
    }

    /** `apply_style` (kobold.py lines 189-214). `style` is `None` when the request names
        no style, and otherwise the style the inherited lookup resolved.
        A collection is resolved to one of its styles, chosen freely. */
    method ApplyStyle(style: Option<ExistingStyle>) returns (err: Option<HordeError>)
      modifies this, StyleObjects(style)
      ensures warnings == old(warnings) && wp == old(wp) && downgradeWpPriority == old(downgradeWpPriority)
      // the error raised, if any, given the style finally applied
      ensures err == AppliedStyleError(style, existingStyle, old(prompt))
      // no style requested: nothing happens
      ensures style.None? ==> err.None? && existingStyle == old(existingStyle)
      // no style, a style mismatch or an empty collection: the request is untouched
      ensures style.None? || (err.Some? && !err.value.FormatFailure?) ==>
                prompt == old(prompt) && models == old(models) && params == old(params) && nsfw == old(nsfw)
      ensures style.None? || (err.Some? && !err.value.FormatFailure?) ==>
                styleKudos == old(styleKudos)
      // a style of another type is refused before anything is counted
      ensures style.Some? ==> (err == Some(StyleMismatchError) <==> StyleType(style.value) != "text")
      ensures style.Some? && StyleType(style.value) != "text" ==>
                forall o :: o in StyleObjects(style) ==> unchanged(o)
      // a collection is counted once whatever happens next; an empty one fails
      ensures style.Some? && StyleType(style.value) == "text" && style.value.Collection? ==>
                style.value.collection.useCount == old(style.value.collection.useCount) + 1
      ensures style.Some? && StyleType(style.value) == "text" && style.value.Collection? ==>
                (err == Some(EmptyStyleCollection) <==> style.value.collection.styles == [])
      // a text style is applied
      ensures err.None? && style.Some? ==>
                && existingStyle.Some? && existingStyle.value.Single?
                && var chosen := existingStyle.value.style;
                && Resolves(style.value, chosen)
                && models == chosen.modelNames
                && FormatMapPrompt(chosen.prompt, old(prompt)) == Ok(prompt)
                && params == StyledParams(chosen.params, old(params))
                && nsfw == chosen.nsfw
                && chosen.useCount == old(chosen.useCount) + 1
                && styleKudos == (old(styleKudos) || chosen.userId != user.id)
      // ... and no other style of a collection is counted
      ensures (err.None? || err.value.FormatFailure?) && style.Some? && style.value.Collection? ==>
                forall s :: s in style.value.collection.styles && s != existingStyle.value.style ==>
                  s.useCount == old(s.useCount)
      // a template the formatter refuses: the models are already replaced,
      // nothing else is, and the chosen style is not counted
      ensures err.Some? && err.value.FormatFailure? ==>
                && style.Some? && existingStyle.Some? && existingStyle.value.Single?
                && var chosen := existingStyle.value.style;
                && Resolves(style.value, chosen)
                && FormatMapPrompt(chosen.prompt, old(prompt)).Err?
                && models == chosen.modelNames
                && prompt == old(prompt) && params == old(params) && nsfw == old(nsfw)
                && chosen.useCount == old(chosen.useCount) && styleKudos == old(styleKudos)
      ensures err.Some? ==> err.value in {StyleMismatchError, EmptyStyleCollection} || err.value.FormatFailure?
    {
      if style.None? {
        return None;
      }
      var es := style.value;
      existingStyle := Some(es);
      if StyleType(es) != "text" {
        return Some(StyleMismatchError);
      }
      var chosen: Style;
      match es {
        case Single(s) =>
          chosen := s;
        case Collection(c) =>
          c.useCount := c.useCount + 1;
          if |c.styles| == 0 {
            return Some(EmptyStyleCollection);
          }
          var k :| 0 <= k < |c.styles|;
          chosen := c.styles[k];
          existingStyle := Some(Single(chosen));
      }
      err := ApplyResolvedStyle(chosen);
    }

    /** kobold.py lines 201-212: the resolved style replaces the models, the prompt (the
        template with the user's prompt in it), the params (keeping `n`) and
        the nsfw flag, and is counted once. `format_map` raising leaves the
        models already replaced. */
    method ApplyResolvedStyle(chosen: Style) returns (err: Option<HordeError>)
      modifies this, chosen
      ensures warnings == old(warnings) && wp == old(wp) && downgradeWpPriority == old(downgradeWpPriority)
      ensures models == chosen.modelNames
      ensures existingStyle == old(existingStyle)
      ensures err.Some? <==> FormatMapPrompt(chosen.prompt, old(prompt)).Err?
      ensures err.Some? ==>
                && err == Some(FormatMapPrompt(chosen.prompt, old(prompt)).error)
                && prompt == old(prompt) && params == old(params) && nsfw == old(nsfw)
                && chosen.useCount == old(chosen.useCount) && styleKudos == old(styleKudos)
      ensures err.None? ==>
                && FormatMapPrompt(chosen.prompt, old(prompt)) == Ok(prompt)
                && params == StyledParams(chosen.params, old(params))
                && nsfw == chosen.nsfw
                && chosen.useCount == old(chosen.useCount) + 1
                && styleKudos == (old(styleKudos) || chosen.userId != user.id)
    {
      models := chosen.modelNames;
      var expanded := FormatMapPrompt(chosen.prompt, prompt);
      if expanded.Err? {
        return Some(expanded.error);
      }
      prompt := expanded.value;
      params := StyledParams(chosen.params, params);
      nsfw := chosen.nsfw;
      chosen.useCount := chosen.useCount + 1;
      if chosen.userId != user.id {
        styleKudos := true;
      }
      return None;
    }

    /** `validate` (kobold.py lines 170-178): the prompt of the arguments, the style,
        the inherited validation (`baseError`), the parameter validator
        (`paramCheck`, its warnings or its error), then the extra images. */
    method Validate(argsPrompt: string, style: Option<ExistingStyle>, baseError: Option<HordeError>,
                    paramCheck: Result<seq<string>>, extraSourceImages: Option<seq<string>>)
      returns (err: Option<HordeError>)
      modifies this, StyleObjects(style)
      ensures wp == old(wp) && downgradeWpPriority == old(downgradeWpPriority)
      // the checks run in order: style, inherited checks, parameters, extra images
      ensures err == ValidationError(AppliedStyleError(style, existingStyle, argsPrompt), baseError,
                                     paramCheck, extraSourceImages)
      ensures style.None? ==> prompt == argsPrompt && params == old(params) && models == old(models)
      ensures style.None? ==>
                existingStyle == old(existingStyle) && nsfw == old(nsfw) && styleKudos == old(styleKudos)
      // a style that applies sets the request up as `apply_style` does
      ensures AppliedStyleError(style, existingStyle, argsPrompt).None? && style.Some? ==>
                && existingStyle.Some? && existingStyle.value.Single?
                && var chosen := existingStyle.value.style;
                && Resolves(style.value, chosen)
                && FormatMapPrompt(chosen.prompt, argsPrompt) == Ok(prompt)
                && models == chosen.modelNames
                && params == StyledParams(chosen.params, old(params))
                && nsfw == chosen.nsfw
                && chosen.useCount == old(chosen.useCount) + 1
                && styleKudos == (old(styleKudos) || chosen.userId != user.id)
      // the use counts `apply_style` changes (and commits before the later checks)
      ensures style.Some? && StyleType(style.value) != "text" ==>
                forall o :: o in StyleObjects(style) ==> unchanged(o)
      ensures style.Some? && StyleType(style.value) == "text" && style.value.Collection? ==>
                style.value.collection.useCount == old(style.value.collection.useCount) + 1
      ensures AppliedStyleError(style, existingStyle, argsPrompt).None? && style.Some? && style.value.Collection? ==>
                forall s :: s in style.value.collection.styles && s != existingStyle.value.style ==>
                  s.useCount == old(s.useCount)
      ensures (AppliedStyleError(style, existingStyle, argsPrompt).Some? || baseError.Some? || paramCheck.Err?)
              ==> warnings == old(warnings)
      ensures err.None? ==> baseError.None? && paramCheck.Ok? && warnings == paramCheck.value
      ensures err.None? ==> CheckExtraSourceImages(extraSourceImages).None?
      ensures style.None? && baseError.None? && paramCheck.Ok? ==>
                err == CheckExtraSourceImages(extraSourceImages)
    {
      prompt := argsPrompt;
      err := ApplyStyle(style);
      if err.Some? {
        return;
      }
      if baseError.Some? {
        return baseError;
      }
      if paramCheck.Err? {
        return Some(paramCheck.error);
      }
      warnings := paramCheck.value;
      err := CheckExtraSourceImages(extraSourceImages);
    }

    /** `get_hashed_params_dict` (kobold.py lines 180-187). */
    function HashedParamsDict(hash: Params -> string): (h: string)
      reads this
      ensures h == hash(params["models" := StrList(argsModels)])
    {
      hash(HashPayload(params, argsModels))
    }

    /** The admission inputs as this handler holds them. */
    function Request(n: nat, maxLength: nat, allowDowngrade: bool, upfront: UpfrontPolicy,
                     limit: LimitCheck): AdmissionRequest
      reads this, user
    {
      AdmissionRequest(models, maxLength, n, sharedKey, allowDowngrade, upfront, user.kudos as real,
                       limit, StyleKeyId(existingStyle))
    }

    /** `initiate_waiting_prompt` (kobold.py lines 95-162). The waiting prompt's `n` and
        `max_length`, the model multipliers and `require_upfront_kudos` are
        inputs. The shared key's limit check is `limitFor`, applied to the
        waiting prompt's `max_length` as it is after a possible downgrade. */
    method InitiateWaitingPrompt(wpId: string, n: nat, maxLength: nat, multiplier: string -> real,
                                 allowDowngrade: bool, upfront: UpfrontPolicy, limitFor: nat -> LimitCheck)
      returns (a: Admission)
      modifies this
      ensures wp != null && fresh(wp)
      ensures a == Admit(old(Request(n, maxLength, allowDowngrade, upfront, limitFor(maxLength)))
                           .(limit := limitFor(wp.maxLength)), multiplier)
      ensures wp.id == wpId && wp.models == models && wp.prompt == prompt && wp.params == params
      ensures wp.userId == user.id && wp.sharedKeyId == (if sharedKey.Some? then Some(sharedKey.value.id) else None)
      ensures wp.deleted <==> a.Rejected?
      ensures var q := old(Request(n, maxLength, allowDowngrade, upfront, limitFor(maxLength)));
              wp.downgrades == (if CanDowngrade(q) && UserShort(q, Required(q, multiplier)) then [upfront.tokens] else [])
      ensures var q := old(Request(n, maxLength, allowDowngrade, upfront, limitFor(maxLength)));
              downgradeWpPriority == (old(downgradeWpPriority) || (CanDowngrade(q) && SharedKeyShort(q, Required(q, multiplier))))
      ensures wp.downgrades == [] ==> wp.n == n && wp.maxLength == maxLength
      ensures prompt == old(prompt) && models == old(models) && params == old(params)
      ensures existingStyle == old(existingStyle)
      ensures nsfw == old(nsfw) && styleKudos == old(styleKudos) && warnings == old(warnings)
    {
      ghost var q := Request(n, maxLength, allowDowngrade, upfront, limitFor(maxLength));
      var keyId := if sharedKey.Some? then Some(sharedKey.value.id) else None;
      wp := new TextWaitingPrompt(wpId, user.id, models, prompt, params, keyId, n, maxLength);
      var required := ComputeRequiredKudos(models, multiplier, wp.maxLength, wp.n);
      var keyShort := false;
      if sharedKey.Some? && sharedKey.value.kudos != Unlimited && required > sharedKey.value.kudos as real {
        keyShort := true;
        if allowDowngrade && !upfront.disableDowngrade {
          downgradeWpPriority := true;
        } else {
          wp.Delete();
          return Rejected(KudosUpfront(required, Some(SharedKeyInsufficientKudos)));
        }
      }
      if upfront.needsKudos {
        if required > user.kudos as real {
          if allowDowngrade && !upfront.disableDowngrade {
            wp.Downgrade(upfront.tokens);
          } else {
            wp.Delete();
            return Rejected(KudosUpfront(required, None));
          }
        }
      }
      var downgradeTokens := if wp.downgrades == [] then None else Some(upfront.tokens);
      ghost var qf := q.(limit := limitFor(wp.maxLength));
      AdmitByStages(qf, multiplier);
      if sharedKey.Some? {
        var limit := limitFor(wp.maxLength);
        if !limit.isInLimit {
          var bypass := StyleKeyId(existingStyle).Some? && StyleKeyId(existingStyle).value == sharedKey.value.id;
          if !bypass {
            wp.Delete();
            return Rejected(BadRequest(limit.failMessage, None));
          }
        }
      }
      return Accepted(keyShort, downgradeTokens);
    }
  }
}

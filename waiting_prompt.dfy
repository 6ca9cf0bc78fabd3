/** The fields of a text waiting prompt (`TextWaitingPrompt`) that the
    endpoints create, read and change. How the class derives `n` and
    `max_length` from the params, and what `downgrade` does to them, is not
    part of this model: both enter as inputs or stay unconstrained. */
module WaitingPrompt {
  import opened Exceptions
  import opened KoboldParams

  /** What a status query can see of a waiting prompt. */
  datatype WpSnapshot = WpSnapshot(
    id: string, n: nat, maxLength: nat, models: seq<string>, prompt: string,
    params: Params, deleted: bool, downgrades: seq<int>)

  class TextWaitingPrompt {
    const id: string
    const userId: string
    const models: seq<string>
    const prompt: string
    const params: Params
    const sharedKeyId: Option<string>
    var n: nat
    var maxLength: nat
    /** Set by `delete()`: the job no longer exists. */
    var deleted: bool
    /** The token counts of the `downgrade(tokens)` calls, in order. */
    var downgrades: seq<int>

    constructor (id: string, userId: string, models: seq<string>, prompt: string, params: Params,
                 sharedKeyId: Option<string>, n: nat, maxLength: nat)
      ensures this.id == id && this.userId == userId && this.models == models
      ensures this.prompt == prompt && this.params == params && this.sharedKeyId == sharedKeyId
      ensures this.n == n && this.maxLength == maxLength
      ensures !deleted && downgrades == []
    {
      this.id := id;
      this.userId := userId;
      this.models := models;
      this.prompt := prompt;
      this.params := params;
      this.sharedKeyId := sharedKeyId;
      this.n := n;
      this.maxLength := maxLength;
      deleted := false;
      downgrades := [];
    }

    function Snapshot(): WpSnapshot
      reads this
    {
      WpSnapshot(id, n, maxLength, models, prompt, params, deleted, downgrades)
    }

    /** `wp.downgrade(tokens)`: recorded; its effect on the size fields is
        deliberately left unconstrained. */
    method Downgrade(tokens: int)
      modifies this
      ensures downgrades == old(downgrades) + [tokens]
      ensures deleted == old(deleted)
    {
      downgrades := downgrades + [tokens];
    }

    /** `wp.delete()`. */
    method Delete()
      modifies this
      ensures deleted
      ensures n == old(n) && maxLength == old(maxLength) && downgrades == old(downgrades)
    {
      deleted := true;
    }
  }
}

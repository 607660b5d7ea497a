/** Option and Result, the identifiers shared by every component, and two facts about finite sets. */
module Base {
  datatype Option<+T> = None | Some(value: T)

  datatype Result<+T, +E> = Ok(value: T) | Err(error: E)

  // UUIDs and platform ids are names that can only be compared.
  type AccountId = nat
  type ContactId = nat
  type ConversationId = nat
  type JobId = nat
  type MessageId = nat
  type OutboxId = nat
  type WorkerId = nat
  type WaId = nat
  type Time = int

  /** Digests of canonical payloads, taken to be injective: equal digests mean equal contents. */
  datatype Hash = Digest(name: nat)
                | ReplyDigest(message: MessageId, account: AccountId, content: string, mode: string)

  lemma SubsetSize<T>(small: set<T>, large: set<T>)
    requires small <= large
    ensures |small| <= |large|
    ensures |small| == |large| ==> small == large
  {
    assert large == small + (large - small);
  }

  /** A set squeezed between a set and that set with one more member. */
  lemma GrowsByOne<T>(small: set<T>, large: set<T>, extra: T)
    requires large <= small + {extra}
    ensures |large| <= |small| + 1
  {
    SubsetSize(large, small + {extra});
  }
}

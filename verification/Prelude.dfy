/** Results, error tokens and the byte order of identifiers shared by every component. */
module Prelude {

  datatype Option<+T> = None | Some(value: T)

  /** The interface error tokens the modelled functions return. */
  datatype Token =
    | CheckpointRefused | CheckpointUnavailable | ApplicationAlreadyLinked | ApplicationNotLinked
    | ReceiptRefused | AuthorityRefused | PolicyUnavailable | ProfileUnavailable | RootChanged
    | Expired | Cancelled | ClockUnavailable | WrongPhase | WrongMode | StaleAttempt | NotStarted
    | AlreadyActive | ForeignFailure | RelayRefused | Failed
    | Replayed | LedgerFull | StoreRefused | NothingToConfirm | ConfirmationRejected
    | CeremonyInProgress | CeremonyMismatch

  datatype Result<+T> = Ok(value: T) | Err(error: Token)

  /** The order of `str::cmp`: the first differing character decides, a prefix comes first. */
  predicate Less(a: string, b: string) {
    if b == "" then false
    else if a == "" then true
    else a[0] < b[0] || (a[0] == b[0] && Less(a[1..], b[1..]))
  }

  /** The two agree up to `k`, where `a` ends or has the smaller character. */
  predicate PartAt(a: string, b: string, k: nat) {
    k <= |a| && k < |b| && a[..k] == b[..k] && (k < |a| ==> a[k] < b[k])
  }

  lemma {:induction false} LessMeans(a: string, b: string)
    ensures Less(a, b) <==> exists k: nat :: PartAt(a, b, k)
  {
    forall k: nat | k > 0 && PartAt(a, b, k)
      ensures a[0] == b[0] && PartAt(a[1..], b[1..], k - 1)
    {
      assert a[0] == a[..k][0] == b[..k][0] == b[0];
      assert a[1..][..k - 1] == a[..k][1..] == b[1..][..k - 1];
    }
    if a != "" && b != "" && a[0] == b[0] {
      LessMeans(a[1..], b[1..]);
      forall k: nat | PartAt(a[1..], b[1..], k)
        ensures PartAt(a, b, k + 1)
      {
        assert a[..k + 1] == [a[0]] + a[1..][..k] && b[..k + 1] == [b[0]] + b[1..][..k];
      }
    } else if Less(a, b) {
      assert PartAt(a, b, 0);
    }
  }

  lemma {:induction false} LessIrreflexive(a: string)
    ensures !Less(a, a)
  {
    if a != "" { LessIrreflexive(a[1..]); }
  }

  lemma {:induction false} LessTransitive(a: string, b: string, c: string)
    requires Less(a, b) && Less(b, c)
    ensures Less(a, c)
  {
    if a != "" && a[0] == b[0] && b[0] == c[0] { LessTransitive(a[1..], b[1..], c[1..]); }
  }

  lemma {:induction false} LessTotal(a: string, b: string)
    ensures Less(a, b) || a == b || Less(b, a)
  {
    if a != "" && b != "" && a[0] == b[0] {
      LessTotal(a[1..], b[1..]);
      assert a == [a[0]] + a[1..] && b == [b[0]] + b[1..];
    }
  }

  /** Strictly ascending, hence without repetition. */
  predicate Ascending(ids: seq<string>) {
    forall i, j :: 0 <= i < j < |ids| ==> Less(ids[i], ids[j])
  }
}

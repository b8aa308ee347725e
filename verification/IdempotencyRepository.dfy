/** The idempotency_keys table. */
module IdempotencyRepository {
  import opened Common
  import Checkout

  class Repository {
    var keys: Checkout.Keys

    constructor ()
      ensures keys == map[]
    {
      keys := map[];
    }

    method Claim(key: Checkout.Key, hash: Checkout.Hash) returns (won: bool)
      modifies this
      ensures won == Checkout.Claim(old(keys), key, hash).Some?
      ensures keys == if won then Checkout.Claim(old(keys), key, hash).value else old(keys)
    {
      won := key !in keys;
      if won {
        keys := keys[key := Checkout.KeyRow(hash, Checkout.InProgress, None, None, None)];
      }
    }

    method Get(key: Checkout.Key) returns (row: Option<Checkout.KeyRow>)
      ensures row == if key in keys then Some(keys[key]) else None
    {
      row := if key in keys then Some(keys[key]) else None;
    }

    method ReclaimFailed(key: Checkout.Key) returns (won: bool)
      modifies this
      ensures won == Checkout.ReclaimFailed(old(keys), key).Some?
      ensures keys == if won then Checkout.ReclaimFailed(old(keys), key).value else old(keys)
    {
      won := key in keys && keys[key].status == Checkout.FailedKey;
      if won {
        keys := keys[key := keys[key].(status := Checkout.InProgress, body := None, code := None)];
      }
    }

    method SettleCompleted(key: Checkout.Key, body: Checkout.Body, code: int, order: nat)
      modifies this
      ensures keys == Checkout.SettleCompleted(old(keys), key, body, code, order)
    {
      if key in keys {
        keys := keys[key := keys[key].(status := Checkout.Completed, body := Some(body), code := Some(code),
              order := Some(order))];
      }
    }

    method MarkFailed(key: Checkout.Key, order: nat)
      modifies this
      ensures keys == Checkout.MarkKeyFailed(old(keys), key, order)
    {
      if key in keys {
        keys := keys[key := keys[key].(status := Checkout.FailedKey, body := None, code := None, order := Some(order))];
      }
    }
  }
}

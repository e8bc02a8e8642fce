/** The checkpoint record of the NormDispOrUnbalance convergence test: the
    five configuration values sent by `sendSelf` and read back by `recvSelf`.
    The channel that carries the record is external; a receive is modelled by
    the channel's result code and the five values it delivered. */
module Checkpoint {

  /** The wire record: exactly five reals, in the order
      tolDisp, maxNumIter, printFlag, nType, tolUnbalance. */
  type Record = x: seq<real> | |x| == 5 witness [0.0, 0.0, 0.0, 0.0, 0.0]

  /** The part of the test's state that a checkpoint carries. */
  datatype Config = Config(
    tolDisp: real,
    maxNumIter: int,
    printFlag: int,
    nType: int,
    tolUnbalance: real)

  /** Defaults installed when a receive fails. */
  const DefaultTolDisp: real := 0.00000001
  const DefaultMaxNumIter: int := 25
  const DefaultPrintFlag: int := 0
  const DefaultNormType: int := 2

  predicate Integral(x: real) {
    x == x.Floor as real
  }

  /** The C++ conversion `(int)d` of a double: truncation toward zero (the
      floor for non-negative values, the ceiling for negative ones). */
  function Trunc(x: real): (n: int)
    ensures 0.0 <= x ==> n as real <= x < n as real + 1.0
    ensures x < 0.0 ==> n as real - 1.0 < x <= n as real
  {
    if x >= 0.0 || Integral(x) then x.Floor else x.Floor + 1
  }

  /** The record `sendSelf` writes. */
  function Encode(c: Config): (x: Record)
    // the integer slots carry whole numbers, so decoding gives `c` back
    ensures Integral(x[1]) && Integral(x[2]) && Integral(x[3])
    ensures Decode(x) == c
  {
    var x: Record := [c.tolDisp, c.maxNumIter as real, c.printFlag as real, c.nType as real, c.tolUnbalance];
    TruncOfIntegral(x[1]);
    TruncOfIntegral(x[2]);
    TruncOfIntegral(x[3]);
    x
  }

  /** The configuration a successful `recvSelf` installs from a record. */
  function Decode(x: Record): (c: Config)
    ensures c.tolDisp == x[0] && c.tolUnbalance == x[4]
    // each integer slot is truncated toward zero, as the C++ `(int)` cast does
    ensures c.maxNumIter == Trunc(x[1]) && c.printFlag == Trunc(x[2]) && c.nType == Trunc(x[3])
    // so it comes through unchanged exactly when it holds a whole number
    ensures Integral(x[1]) <==> c.maxNumIter as real == x[1]
    ensures Integral(x[2]) <==> c.printFlag as real == x[2]
    ensures Integral(x[3]) <==> c.nType as real == x[3]
  {
    Config(x[0], Trunc(x[1]), Trunc(x[2]), Trunc(x[3]), x[4])
  }

  /** The configuration after `recvSelf`, given the channel's result code
      `res`, the record it delivered, and the configuration before. A failed
      receive (`res < 0`) installs the defaults but keeps `tolUnbalance`. */
  function Restore(res: int, x: Record, prior: Config): (c: Config)
    // a failed receive keeps the unbalance tolerance; a successful one takes it from the record
    ensures res < 0 ==> c.tolUnbalance == prior.tolUnbalance && c.maxNumIter == 25
    ensures res < 0 ==> c.tolDisp == DefaultTolDisp && c.printFlag == DefaultPrintFlag &&
                        c.nType == DefaultNormType
    ensures res >= 0 ==> c.tolUnbalance == x[4] && c.tolDisp == x[0]
    // a successful receive installs the decoded record, integer slots truncated
    ensures res >= 0 ==> c == Decode(x)
  {
    if res < 0 then
      Config(DefaultTolDisp, DefaultMaxNumIter, DefaultPrintFlag, DefaultNormType, prior.tolUnbalance)
    else
      Decode(x)
  }

  /** Truncation is the identity on integral values. */
  lemma TruncOfIntegral(x: real)
    requires Integral(x)
    ensures Trunc(x) as real == x
  {
  }

  /** A successful receive of what `sendSelf` sent restores all five fields
      exactly, whatever was there before. */
  lemma RestoreOfEncode(c: Config, res: int, prior: Config)
    requires res >= 0
    ensures Restore(res, Encode(c), prior) == c
  {
    TruncOfIntegral(c.maxNumIter as real);
    TruncOfIntegral(c.printFlag as real);
    TruncOfIntegral(c.nType as real);
  }

  /** A failed receive installs tolDisp 1e-8, a budget of 25, print flag 0 and
      the 2-norm, whatever the record held, and leaves tolUnbalance alone. */
  lemma RestoreOnFailure(res: int, x: Record, prior: Config)
    requires res < 0
    ensures Restore(res, x, prior) ==
              Config(0.00000001, 25, 0, 2, prior.tolUnbalance)
  {
  }

  /** Re-encoding a decoded record gives the record back exactly when its
      three integer slots hold integral values: decoding loses the fractional
      part of those slots and nothing else. */
  lemma EncodeOfDecode(x: Record)
    ensures Encode(Decode(x)) == x <==> Integral(x[1]) && Integral(x[2]) && Integral(x[3])
  {
    if Integral(x[1]) && Integral(x[2]) && Integral(x[3]) {
      TruncOfIntegral(x[1]);
      TruncOfIntegral(x[2]);
      TruncOfIntegral(x[3]);
      assert Encode(Decode(x)) == x;
    }
  }
}

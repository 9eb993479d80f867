/** The HDR SEI record of the common library (lib_common/HDR.c, AL_THDRSEIs): five optional
    HDR messages, each a payload with a presence flag, and the two operations on the record,
    AL_HDRSEIs_Reset and AL_HDRSEIs_Copy. */
module Hdr {
  /** The payload of one HDR message. Its fields are not part of this model: the record only
      ever copies a payload as a whole. */
  datatype Payload = Payload(fields: seq<int>)

  /** The five messages with their flags: mastering display colour volume (MDCV), content
      light level (CLL), alternative transfer characteristics (ATC), and the SMPTE ST 2094-10
      and ST 2094-40 dynamic metadata. */
  datatype Record = Record(
    hasMDCV: bool, mdcv: Payload,
    hasCLL: bool, cll: Payload,
    hasATC: bool, atc: Payload,
    hasST2094_10: bool, st2094_10: Payload,
    hasST2094_40: bool, st2094_40: Payload)

  /** The record AL_HDRSEIs_Reset leaves: no message present, the payloads as they were. */
  function ResetValue(r: Record): Record
  {
    r.(hasMDCV := false, hasCLL := false, hasATC := false, hasST2094_10 := false, hasST2094_40 := false)
  }

  /** The destination AL_HDRSEIs_Copy leaves: each flag taken from the source, each payload
      taken from the source when its flag is set and kept otherwise. */
  function CopiedValue(src: Record, dst: Record): Record
  {
    Record(
      src.hasMDCV, if src.hasMDCV then src.mdcv else dst.mdcv,
      src.hasCLL, if src.hasCLL then src.cll else dst.cll,
      src.hasATC, if src.hasATC then src.atc else dst.atc,
      src.hasST2094_10, if src.hasST2094_10 then src.st2094_10 else dst.st2094_10,
      src.hasST2094_40, if src.hasST2094_40 then src.st2094_40 else dst.st2094_40)
  }

  /** Two records carry the same messages: the same flags, and the same payload for every
      message present. Payloads of absent messages do not matter. */
  predicate SameMessages(a: Record, b: Record)
  {
    && a.hasMDCV == b.hasMDCV && (a.hasMDCV ==> a.mdcv == b.mdcv)
    && a.hasCLL == b.hasCLL && (a.hasCLL ==> a.cll == b.cll)
    && a.hasATC == b.hasATC && (a.hasATC ==> a.atc == b.atc)
    && a.hasST2094_10 == b.hasST2094_10 && (a.hasST2094_10 ==> a.st2094_10 == b.st2094_10)
    && a.hasST2094_40 == b.hasST2094_40 && (a.hasST2094_40 ==> a.st2094_40 == b.st2094_40)
  }

  /** No message is present. */
  predicate NoMessage(r: Record)
  {
    !r.hasMDCV && !r.hasCLL && !r.hasATC && !r.hasST2094_10 && !r.hasST2094_40
  }

  /** The payloads of two records are the same. */
  predicate SamePayloads(a: Record, b: Record)
  {
    a.mdcv == b.mdcv && a.cll == b.cll && a.atc == b.atc && a.st2094_10 == b.st2094_10
    && a.st2094_40 == b.st2094_40
  }

  /** Reset clears every flag, writes no payload, and resetting again changes nothing. */
  lemma ResetClears(r: Record)
    ensures NoMessage(ResetValue(r)) && SamePayloads(ResetValue(r), r)
    ensures ResetValue(ResetValue(r)) == ResetValue(r)
  {
  }

  /** After a copy the destination carries exactly the source's messages, and its payloads of
      absent messages are the ones it had: those two facts determine the copy. */
  lemma CopyCarriesMessages(src: Record, dst: Record)
    ensures var r := CopiedValue(src, dst);
      && SameMessages(r, src)
      && (!src.hasMDCV ==> r.mdcv == dst.mdcv) && (!src.hasCLL ==> r.cll == dst.cll)
      && (!src.hasATC ==> r.atc == dst.atc) && (!src.hasST2094_10 ==> r.st2094_10 == dst.st2094_10)
      && (!src.hasST2094_40 ==> r.st2094_40 == dst.st2094_40)
  {
  }

  /** Any record with the source's messages and the destination's payloads of absent messages
      is the copy. */
  lemma CopyUnique(src: Record, dst: Record, r: Record)
    requires SameMessages(r, src)
    requires !src.hasMDCV ==> r.mdcv == dst.mdcv
    requires !src.hasCLL ==> r.cll == dst.cll
    requires !src.hasATC ==> r.atc == dst.atc
    requires !src.hasST2094_10 ==> r.st2094_10 == dst.st2094_10
    requires !src.hasST2094_40 ==> r.st2094_40 == dst.st2094_40
    ensures r == CopiedValue(src, dst)
  {
  }

  /** Copying the same source twice leaves the destination as after one copy, and copying a
      record onto itself changes nothing. */
  lemma CopyIdempotent(src: Record, dst: Record)
    ensures CopiedValue(src, CopiedValue(src, dst)) == CopiedValue(src, dst)
    ensures CopiedValue(src, src) == src
  {
  }

  /** Copying a record with no message only clears the destination's flags: it is a reset. */
  lemma CopyOfEmptyIsReset(src: Record, dst: Record)
    requires NoMessage(src)
    ensures CopiedValue(src, dst) == ResetValue(dst)
  {
  }

  /** AL_THDRSEIs. */
  class HdrSeis {
    var hasMDCV: bool
    var mdcv: Payload
    var hasCLL: bool
    var cll: Payload
    var hasATC: bool
    var atc: Payload
    var hasST2094_10: bool
    var st2094_10: Payload
    var hasST2094_40: bool
    var st2094_40: Payload

    function Value(): Record
      reads this
    {
      Record(hasMDCV, mdcv, hasCLL, cll, hasATC, atc, hasST2094_10, st2094_10, hasST2094_40, st2094_40)
    }

    constructor (r: Record)
      ensures Value() == r
    {
      hasMDCV, mdcv, hasCLL, cll, hasATC, atc := r.hasMDCV, r.mdcv, r.hasCLL, r.cll, r.hasATC, r.atc;
      hasST2094_10, st2094_10, hasST2094_40, st2094_40 := r.hasST2094_10, r.st2094_10, r.hasST2094_40, r.st2094_40;
    }
  }

  /** AL_HDRSEIs_Reset: nothing for a null record, otherwise every flag cleared. */
  method Reset(p: HdrSeis?)
    modifies p
    ensures p != null ==> p.Value() == ResetValue(old(p.Value()))
  {
    if p == null {
      return;
    }
    p.hasMDCV := false;
    p.hasCLL := false;
    p.hasATC := false;
    p.hasST2094_10 := false;
    p.hasST2094_40 := false;
  }

  /** AL_HDRSEIs_Copy: each flag of the destination set from the source's, then the payload
      copied when the flag just written is set. The two records may be the same one; the
      source is otherwise left alone. */
  method Copy(src: HdrSeis, dst: HdrSeis)
    modifies dst
    ensures dst.Value() == CopiedValue(old(src.Value()), old(dst.Value()))
    ensures src.Value() == old(src.Value())
  {
    dst.hasMDCV := src.hasMDCV;
    if dst.hasMDCV {
      dst.mdcv := src.mdcv;
    }
    dst.hasCLL := src.hasCLL;
    if dst.hasCLL {
      dst.cll := src.cll;
    }
    dst.hasATC := src.hasATC;
    if dst.hasATC {
      dst.atc := src.atc;
    }
    dst.hasST2094_10 := src.hasST2094_10;
    if dst.hasST2094_10 {
      dst.st2094_10 := src.st2094_10;
    }
    dst.hasST2094_40 := src.hasST2094_40;
    if dst.hasST2094_40 {
      dst.st2094_40 := src.st2094_40;
    }
    CopyIdempotent(old(src.Value()), old(dst.Value()));
  }
}

/**
 * The dns_context as an object that is updated in place: hashing, the dictionary scan and the
 * character loop of _dns_encode_domain, each tied to its specification in NameEncode.
 */
module NameWriter {
  import opened Bytes
  import opened NameDecode
  import opened NameEncode

  class Context {
    const data: array<byte>
    var ptr: nat
    var dict: seq<DictItem>

    constructor (data: array<byte>, ptr: nat)
      ensures this.data == data && this.ptr == ptr && dict == []
    {
      this.data, this.ptr, this.dict := data, ptr, [];
    }

    ghost function State(): Ctx
      reads this, data
    {
      Ctx(data[..], ptr, dict)
    }

    method Hash(s: Text) returns (h: nat)
      ensures h == DictHash(s)
    {
      h := 0;
      for i := 0 to |s|
        invariant h == DictHash(s[..i])
      {
        assert s[..i + 1][..i] == s[..i];
        var x := s[i] as int;
        h := ((if x < 128 then x else x - 256) + 31 * h) % 0x1_0000_0000;
      }
      assert s[..|s|] == s;
    }

    /** _dns_get_domain_offset: the scan stops at the first equal hash, whatever the name behind it. */
    method DomainOffset(name: Text) returns (offset: int)
      requires ptr > 0
      modifies this`dict
      ensures Enc(State(), offset) == Lookup(old(State()), name)
    {
      if name == [] {
        return -1;
      }
      var hash := Hash(name);
      var i := 0;
      while i < |dict|
        invariant 0 <= i <= |dict| && dict == old(dict)
        invariant forall j :: 0 <= j < i ==> dict[j].hash != hash
      {
        if dict[i].hash == hash {
          assert FindHash(dict, hash) == i;
          var check := new byte[MAX_CNAME_LEN](_ => 0);
          var ret, _, _ := DecodeName(data[..], dict[i].pos, check, MAX_CNAME_LEN);
          return if ret != 0 then -1 else dict[i].pos;
        }
        i := i + 1;
      }
      assert FindHash(dict, hash) == |dict|;
      if |dict| < DICT_SIZE && hash != 0 && ptr - 1 < data.Length {
        dict := dict + [DictItem(hash, (ptr - 1) % 0x1_0000)];
      }
      offset := -1;
    }

    method WritePointer(lenPos: nat, offset: nat)
      requires lenPos < ptr && data.Length - ptr > 1
      modifies this`ptr, data
      ensures State() == EmitPointer(old(State()), lenPos, offset)
    {
      var field := ShortBytes(0xC000 + offset % 0x4000);
      data[lenPos], data[lenPos + 1] := field[0], field[1];
      assert data[..] == Write(old(data[..]), lenPos, field);
      ptr := ptr + 1;
    }

    /** What follows the loop of _dns_encode_domain. */
    method CloseName(lenPos: nat, num: nat, total: nat) returns (ret: int)
      requires lenPos < ptr
      modifies this`ptr, data
      ensures Enc(State(), ret) == Finish(old(State()), lenPos, num, total)
    {
      if data.Length - ptr < 1 {
        return -1;
      }
      data[lenPos] := num % 256;
      ret := total;
      if total > 1 {
        data[ptr] := 0;
        ret := ret + 1;
        ptr := ptr + 1;
      }
      if data.Length - ptr <= 0 {
        return -1;
      }
    }

    /** _dns_encode_domain. */
    method EncodeDomain(domain: Text) returns (ret: int)
      modifies this, data
      ensures Enc(State(), ret) == EncodeName(old(State()), domain)
    {
      hide Lookup, EmitPointer, Finish;
      ghost var goal := EncodeName(State(), domain);
      var lenPos: nat, num: nat, total: nat, rest := ptr, 0, 1, domain;
      ptr := ptr + 1;
      var offset := DomainOffset(domain);
      while data.Length - ptr > 1 && rest != []
        invariant lenPos < ptr && EncodeLoop(State(), lenPos, num, offset, rest, total) == goal
        decreases |rest|
      {
        total := total + 1;
        if offset >= 0 {
          WritePointer(lenPos, offset);
          return total;
        }
        ghost var before := State();
        if rest[0] == DOT {
          data[lenPos] := num % 256;
          ptr := ptr + 1;
          assert State() == before.(data := before.data[lenPos := num % 256], ptr := ptr);
          num, lenPos, rest := 0, ptr - 1, rest[1..];
          offset := DomainOffset(rest);
        } else {
          data[ptr] := rest[0];
          num, ptr, rest := num + 1, ptr + 1, rest[1..];
          assert State() == before.(data := before.data[before.ptr := data[ptr - 1]], ptr := ptr);
        }
      }
      ret := CloseName(lenPos, num, total);
    }
  }
}

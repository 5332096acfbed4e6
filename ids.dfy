/** Document ids. MongoDB ids are 12-byte ObjectIds; both servers receive them
    as text (URL parameters, form fields, JSON bodies) and convert them with
    `ObjectId(text)` in Python or mongoose's ObjectId cast in JavaScript. */
module Ids {
  import opened Common

  predicate IsHexDigit(c: char)
  {
    '0' <= c <= '9' || 'a' <= c <= 'f' || 'A' <= c <= 'F'
  }

  predicate IsLowerHexDigit(c: char)
  {
    '0' <= c <= '9' || 'a' <= c <= 'f'
  }

  /** An ObjectId, held as its canonical text: what `str(oid)` in Python and
      `oid.toString()` in JavaScript give back. */
  datatype ObjectId = ObjectId(hex: string)

  ghost predicate Canonical(o: ObjectId)
  {
    |o.hex| == 24 && forall i :: 0 <= i < 24 ==> IsLowerHexDigit(o.hex[i])
  }

  predicate IsObjectIdText(s: string)
  {
    |s| == 24 && forall i :: 0 <= i < |s| ==> IsHexDigit(s[i])
  }

  /** `ObjectId(s)`: text of 24 hexadecimal digits, in either case, names an id;
      anything else raises (InvalidId in Python, a CastError in mongoose). */
  function CastObjectId(s: string): (r: Option<ObjectId>)
    ensures r.Some? <==> IsObjectIdText(s)
    ensures r.Some? ==> Canonical(r.value)
  {
    if IsObjectIdText(s) then Some(ObjectId(Lower(s))) else None
  }

  /** Rendering an id as text and parsing it back gives the same id. */
  lemma CastRoundTrip(o: ObjectId)
    requires Canonical(o)
    ensures CastObjectId(o.hex) == Some(o)
  {
    assert Lower(o.hex) == o.hex;
  }

  /** The cast ignores the case of the hexadecimal digits. */
  lemma CastIgnoresCase(s: string)
    ensures CastObjectId(Lower(s)) == CastObjectId(s)
  {
    LowerIsLowerCase(s);
    assert IsObjectIdText(s) <==> IsObjectIdText(Lower(s));
  }

  /** The caller as the authentication middleware leaves it in `req.user`. */
  datatype Requester = Requester(id: ObjectId, role: string)

  predicate IsAdmin(r: Requester)
  {
    r.role == "admin"
  }
}

/**
 * The checks the product-image upload endpoint (app/api/upload/route.ts)
 * makes before it touches storage, and the name it stores the file under.
 * The clock reading `Date.now()` is a parameter.
 */
module Upload {
  import W = Wrappers

  /** The parts of a `File` the endpoint reads. */
  datatype FileInfo = FileInfo(name: string, mimeType: string, size: int)

  /** What `formData.get('file')` yields: nothing, a plain text field, or a file. */
  datatype FormField = Missing | Text(text: string) | Upload(file: FileInfo)

  datatype Outcome = Rejected(status: int, message: string) | Accepted(file: FileInfo)

  const AllowedTypes: seq<string> := ["image/jpeg", "image/png", "image/webp"]

  /** 5 MiB. */
  const MaxFileSize: int := 5 * 1024 * 1024

  const NoFileMessage: string := "No file provided"
  const TypeMessage: string := "Invalid file type. Only JPEG, PNG and WebP are allowed."
  const SizeMessage: string := "File size too large. Maximum size is 5MB."

  /** The value is falsy: null, or an empty text field. */
  predicate Absent(field: FormField) {
    field.Missing? || (field.Text? && field.text == "")
  }

  /**
   * The three early returns, in order: presence, then type, then size.  A
   * non-empty text field passes the presence check but has no type, so it
   * fails the type check.
   */
  function Validate(field: FormField): (r: Outcome)
    ensures r.Rejected? ==> r.status == 400
    ensures r.Accepted? <==> field.Upload? && field.file.mimeType in AllowedTypes && field.file.size <= MaxFileSize
    ensures r.Accepted? ==> r.file == field.file
  {
    if Absent(field) then Rejected(400, NoFileMessage)
    else if !field.Upload? || field.file.mimeType !in AllowedTypes then Rejected(400, TypeMessage)
    else if field.file.size > MaxFileSize then Rejected(400, SizeMessage)
    else Accepted(field.file)
  }

  /** A missing file, or an empty text field in its place, is refused first. */
  lemma {:induction false} MissingRejected(field: FormField)
    requires Absent(field)
    ensures Validate(field) == Rejected(400, NoFileMessage)
  {
  }

  /** A present value that is not a file of an allowed type gets the type error, whatever its size. */
  lemma {:induction false} TypeCheckedBeforeSize(field: FormField)
    requires !Absent(field)
    requires !field.Upload? || field.file.mimeType !in AllowedTypes
    ensures Validate(field) == Rejected(400, TypeMessage)
  {
  }

  /** An allowed file is refused for size exactly when it exceeds 5 MiB; 5 MiB itself passes. */
  lemma {:induction false} SizeBoundary(f: FileInfo)
    requires f.mimeType in AllowedTypes
    ensures Validate(Upload(f)) == (if f.size > MaxFileSize then Rejected(400, SizeMessage) else Accepted(f))
    ensures f.size == 5242880 ==> Validate(Upload(f)).Accepted?
  {
  }

  // ---------------------------------------------------------------------
  // The stored name

  /** A character the pattern `[a-zA-Z0-9.-]` keeps. */
  predicate SafeChar(c: char) {
    ('a' <= c <= 'z') || ('A' <= c <= 'Z') || ('0' <= c <= '9') || c == '.' || c == '-'
  }

  /** `name.replace(/[^a-zA-Z0-9.-]/g, '')`: drop every other character. */
  function Sanitize(name: string): (r: string)
    ensures |r| <= |name|
    ensures forall i :: 0 <= i < |r| ==> SafeChar(r[i])
  {
    if name == [] then []
    else if SafeChar(name[0]) then [name[0]] + Sanitize(name[1..])
    else Sanitize(name[1..])
  }

  /** The replace works character by character, so it distributes over concatenation. */
  lemma {:induction false} SanitizeConcat(a: string, b: string)
    ensures Sanitize(a + b) == Sanitize(a) + Sanitize(b)
  {
    if a == [] {
      assert a + b == b;
    } else {
      assert (a + b)[0] == a[0] && (a + b)[1..] == a[1..] + b;
      SanitizeConcat(a[1..], b);
    }
  }

  /** A name made only of kept characters is left exactly as it is. */
  lemma {:induction false} SanitizeKeepsSafe(name: string)
    requires forall i :: 0 <= i < |name| ==> SafeChar(name[i])
    ensures Sanitize(name) == name
  {
    if name != [] {
      forall i | 0 <= i < |name[1..]| ensures SafeChar(name[1..][i]) {
        assert name[1..][i] == name[i + 1];
      }
      SanitizeKeepsSafe(name[1..]);
    }
  }

  /** Sanitising twice gives what sanitising once gives. */
  lemma {:induction false} SanitizeIdempotent(name: string)
    ensures Sanitize(Sanitize(name)) == Sanitize(name)
  {
    SanitizeKeepsSafe(Sanitize(name));
  }

  /** Every kept character of the name survives, and nothing else appears. */
  lemma {:induction false} SanitizeMembers(name: string)
    ensures forall c :: c in Sanitize(name) <==> c in name && SafeChar(c)
  {
    if name != [] {
      SanitizeMembers(name[1..]);
      assert forall c :: c in name <==> c == name[0] || c in name[1..];
    }
  }

  function DigitChar(d: int): char
    requires 0 <= d < 10
  {
    "0123456789"[d]
  }

  /** The decimal text of a whole number, as the template literal writes it. */
  function Decimal(n: nat): (r: string)
    ensures |r| >= 1
    ensures forall i :: 0 <= i < |r| ==> '0' <= r[i] <= '9'
  {
    if n < 10 then [DigitChar(n)] else Decimal(n / 10) + [DigitChar(n % 10)]
  }

  /** Reading decimal text back as a number. */
  function ParseDecimal(s: string): nat
    requires forall i :: 0 <= i < |s| ==> '0' <= s[i] <= '9'
  {
    if s == [] then 0 else 10 * ParseDecimal(s[..|s| - 1]) + (s[|s| - 1] as int - '0' as int)
  }

  lemma {:induction false} DigitValue(d: int)
    requires 0 <= d < 10
    ensures DigitChar(d) as int - '0' as int == d
  {
    assert "0123456789"[d] as int == '0' as int + d;
  }

  lemma {:induction false} DecimalRoundTrip(n: nat)
    ensures ParseDecimal(Decimal(n)) == n
  {
    var s := Decimal(n);
    if n < 10 {
      DigitValue(n);
      assert s[..0] == [];
    } else {
      var front := Decimal(n / 10);
      assert s == front + [DigitChar(n % 10)];
      assert s[..|s| - 1] == front;
      DecimalRoundTrip(n / 10);
      DigitValue(n % 10);
    }
  }

  /** `${Date.now()}-${sanitised name}`. */
  function StoredName(now: nat, name: string): (r: string)
    ensures forall i :: 0 <= i < |r| ==> SafeChar(r[i])
  {
    Decimal(now) + "-" + Sanitize(name)
  }

  /** The index of the first `-`, if there is one. */
  function FirstDash(s: string): (r: W.Option<nat>)
    ensures r.Some? ==> r.value < |s| && s[r.value] == '-' && forall j :: 0 <= j < r.value ==> s[j] != '-'
    ensures r.None? ==> forall j :: 0 <= j < |s| ==> s[j] != '-'
  {
    if s == [] then W.None
    else if s[0] == '-' then W.Some(0)
    else match FirstDash(s[1..])
      case None => W.None
      case Some(k) => W.Some(k + 1)
  }

  /**
   * The stored name splits back at its first `-` into the clock reading and
   * the sanitised name: the digits hold no `-`, so the two parts never run
   * together.
   */
  lemma {:induction false} StoredNameSplits(now: nat, name: string)
    ensures FirstDash(StoredName(now, name)) == W.Some(|Decimal(now)|)
    ensures StoredName(now, name)[..|Decimal(now)|] == Decimal(now)
    ensures StoredName(now, name)[|Decimal(now)| + 1..] == Sanitize(name)
    ensures ParseDecimal(StoredName(now, name)[..|Decimal(now)|]) == now
  {
    var d := Decimal(now);
    var s := StoredName(now, name);
    assert s == d + "-" + Sanitize(name);
    assert s[|d|] == '-';
    forall j | 0 <= j < |d| ensures s[j] != '-' {
      assert s[j] == d[j];
    }
    DecimalRoundTrip(now);
  }
}

/**
 * The one-time-password login of the `customer_enquiry` application:
 * `send_otp_view` stores a code for a phone in the session, and
 * `user_login_view` checks a posted phone, code and property against it.
 */
module OtpLogin {
  import opened Wrappers
  import opened Text
  import opened Submission
  import Properties

  /** A JSON scalar, as the session and a JSON request body hold them. */
  datatype Value = Str(s: string) | Int(i: int) | Bool(b: bool) | Null

  /** Python truthiness of a value. */
  predicate Truthy(v: Value)
  {
    match v
    case Str(s) => s != ""
    case Int(i) => i != 0
    case Bool(b) => b
    case Null => false
  }

  type SessionData = map<string, Value>

  /** `dict.get(key)`: a missing key reads as `None`. */
  function Lookup(data: SessionData, key: string): (v: Value)
    ensures key !in data ==> v == Null
    ensures key in data ==> v == data[key]
  {
    if key in data then data[key] else Null
  }

  /** A ten-character string of digits. */
  predicate TenDigits(s: string) { |s| == 10 && IsDigitString(s) }

  datatype SendReply = Sent | InvalidPhoneFormat | SendFailed

  /**
   * The reply of `send_otp_view` to a request body; `None` is a body that is
   * not a JSON object. A truthy phone that is not a string makes `len` raise,
   * which the view reports as a failure.
   */
  function SendVerdict(body: Option<SessionData>): (r: SendReply)
    ensures body.None? ==> r == SendFailed
    ensures body.Some? ==>
              var phone := Lookup(body.value, "phone_number");
              && (r == InvalidPhoneFormat <==> !Truthy(phone) || (phone.Str? && !TenDigits(phone.s)))
              && (r == SendFailed <==> Truthy(phone) && !phone.Str?)
              && (r == Sent <==> phone.Str? && TenDigits(phone.s))
  {
    match body
    case None => SendFailed
    case Some(data) =>
      var phone := Lookup(data, "phone_number");
      if !Truthy(phone) then InvalidPhoneFormat
      else if !phone.Str? then SendFailed
      else if |phone.s| != 10 || !IsDigitString(phone.s) then InvalidPhoneFormat
      else Sent
  }

  /** The session after `send_otp_view` stored a code sent at time `now`. */
  function AfterSend(session: SessionData, body: SessionData, now: int): (r: SessionData)
    ensures r.Keys == session.Keys + {"otp", "otp_phone", "otp_timestamp"}
    ensures r["otp"] == Lookup(body, "otp") && r["otp_phone"] == Lookup(body, "phone_number")
    ensures r["otp_timestamp"] == Int(now)
    ensures forall k :: k in session && k !in {"otp", "otp_phone", "otp_timestamp"} ==> r[k] == session[k]
  {
    session["otp" := Lookup(body, "otp")]["otp_phone" := Lookup(body, "phone_number")]["otp_timestamp" := Int(now)]
  }

  datatype LoginReply =
    | AllFieldsRequired
    | InvalidPhone
    | SendOtpFirst
    | InvalidOtp
    | InvalidProperty
    | LoggedIn(phone: string, propertyCode: string)

  // The checks of `user_login_view`, in order.
  predicate HasAllFields(post: Post)
  {
    Filled(post, "phone_number") && Filled(post, "otp") && Filled(post, "property_code")
  }
  predicate OtpWasSent(post: Post, session: SessionData)
    requires HasAllFields(post)
  {
    Truthy(Lookup(session, "otp")) && Lookup(session, "otp_phone") == Str(post["phone_number"])
  }
  predicate OtpMatches(post: Post, session: SessionData)
    requires HasAllFields(post)
  {
    Lookup(session, "otp") == Str(post["otp"])
  }

  /**
   * `user_login_view` on a POST: each reply is given exactly when every
   * earlier check passes and its own check fails. A stored code that is not
   * a string never equals the posted text.
   */
  function LoginVerdict(post: Post, session: SessionData): (r: LoginReply)
    ensures r == AllFieldsRequired <==> !HasAllFields(post)
    ensures r == InvalidPhone <==> HasAllFields(post) && !TenDigits(post["phone_number"])
    ensures r == SendOtpFirst <==>
              HasAllFields(post) && TenDigits(post["phone_number"]) && !OtpWasSent(post, session)
    ensures r == InvalidOtp <==>
              HasAllFields(post) && TenDigits(post["phone_number"]) && OtpWasSent(post, session)
              && !OtpMatches(post, session)
    ensures r == InvalidProperty <==>
              HasAllFields(post) && TenDigits(post["phone_number"]) && OtpWasSent(post, session)
              && OtpMatches(post, session) && post["property_code"] !in Properties.ValidPropertyCodes
    ensures r.LoggedIn? <==>
              HasAllFields(post) && TenDigits(post["phone_number"]) && OtpWasSent(post, session)
              && OtpMatches(post, session) && post["property_code"] in Properties.ValidPropertyCodes
    ensures r.LoggedIn? ==> r.phone == post["phone_number"] && r.propertyCode == post["property_code"]
  {
    if !(Filled(post, "phone_number") && Filled(post, "otp") && Filled(post, "property_code")) then AllFieldsRequired
    else
      var phone, entered, code := post["phone_number"], post["otp"], post["property_code"];
      var stored, storedPhone := Lookup(session, "otp"), Lookup(session, "otp_phone");
      if |phone| != 10 || !IsDigitString(phone) then InvalidPhone
      else if !Truthy(stored) || storedPhone != Str(phone) then SendOtpFirst
      else if stored != Str(entered) then InvalidOtp
      else if code !in ["Alt", "Orn", "Med", "Star", "Ant"] then InvalidProperty
      else LoggedIn(phone, code)
  }

  /** The session after a successful login: the code is used up and the user is recorded. */
  function AfterLogin(session: SessionData, phone: string, propertyCode: string): (r: SessionData)
    ensures r.Keys == session.Keys - {"otp", "otp_phone"} + {"user_authenticated", "user_phone", "selected_property"}
    ensures "otp" !in r && "otp_phone" !in r
    ensures r["user_authenticated"] == Bool(true) && r["user_phone"] == Str(phone)
    ensures r["selected_property"] == Str(propertyCode)
    ensures forall k :: k in session && k !in {"otp", "otp_phone", "user_authenticated", "user_phone", "selected_property"}
              ==> k in r && r[k] == session[k]
  {
    (session - {"otp", "otp_phone"})["user_authenticated" := Bool(true)]["user_phone" := Str(phone)]
      ["selected_property" := Str(propertyCode)]
  }

  /** A browser session, updated in place by the two views. */
  class Session {
    var data: SessionData

    constructor(initial: SessionData)
      ensures data == initial
    {
      data := initial;
    }

    /** `send_otp_view`: on a valid phone, store the code, the phone and the time. */
    method SendOtp(body: Option<SessionData>, now: int) returns (r: SendReply)
      modifies this
      ensures r == SendVerdict(body)
      ensures r == Sent ==> data == AfterSend(old(data), body.value, now)
      ensures r != Sent ==> data == old(data)
    {
      r := SendVerdict(body);
      if r == Sent {
        var fields := body.value;
        data := data["otp" := Lookup(fields, "otp")];
        data := data["otp_phone" := Lookup(fields, "phone_number")];
        data := data["otp_timestamp" := Int(now)];
      }
    }

    /** `user_login_view` on a POST: only a login that passes every check changes the session. */
    method UserLogin(post: Post) returns (r: LoginReply)
      modifies this
      ensures r == LoginVerdict(post, old(data))
      ensures r.LoggedIn? ==> data == AfterLogin(old(data), r.phone, r.propertyCode)
      ensures !r.LoggedIn? ==> data == old(data)
    {
      r := LoginVerdict(post, data);
      if r.LoggedIn? {
        data := data - {"otp"};
        data := data - {"otp_phone"};
        data := data["user_authenticated" := Bool(true)];
        data := data["user_phone" := Str(r.phone)];
        data := data["selected_property" := Str(r.propertyCode)];
      }
    }
  }

  /** A login after the code was sent to the same phone succeeds when the code and property match. */
  lemma SendThenLoginSucceeds(session: SessionData, body: SessionData, now: int, post: Post)
    requires SendVerdict(Some(body)) == Sent
    requires Lookup(body, "otp") == Str(GetOr(post, "otp", ""))
    requires HasAllFields(post) && Lookup(body, "phone_number") == Str(post["phone_number"])
    requires post["property_code"] in Properties.ValidPropertyCodes
    ensures LoginVerdict(post, AfterSend(session, body, now)) == LoggedIn(post["phone_number"], post["property_code"])
  {
  }

  /** A code is good for one login: repeating a successful login asks for a new code. */
  lemma LoginIsSingleUse(post: Post, session: SessionData)
    requires LoginVerdict(post, session).LoggedIn?
    ensures var r := LoginVerdict(post, session);
            LoginVerdict(post, AfterLogin(session, r.phone, r.propertyCode)) == SendOtpFirst
  {
    var r := LoginVerdict(post, session);
    var after := AfterLogin(session, r.phone, r.propertyCode);
    assert Lookup(after, "otp") == Null;
  }

  /** A successful login had a code stored for that phone, equal to the posted code. */
  lemma LoginNeedsStoredCode(post: Post, session: SessionData)
    requires LoginVerdict(post, session).LoggedIn?
    ensures "otp" in session && session["otp"] == Str(post["otp"]) && post["otp"] != ""
    ensures "otp_phone" in session && session["otp_phone"] == Str(post["phone_number"])
  {
  }

  /** A code sent as a JSON number is stored as a number and never matches the posted text. */
  lemma NumericCodeNeverLogsIn(session: SessionData, post: Post, n: int)
    requires Lookup(session, "otp") == Int(n)
    ensures !LoginVerdict(post, session).LoggedIn?
  {
  }

  /** A code sent for one phone cannot log in another. */
  lemma CodeIsBoundToPhone(session: SessionData, post: Post)
    requires HasAllFields(post) && Lookup(session, "otp_phone") != Str(post["phone_number"])
    ensures !LoginVerdict(post, session).LoggedIn?
  {
  }
}

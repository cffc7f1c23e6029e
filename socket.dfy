/** The CORS rule of the socket server: which `Origin` headers may connect. */
module Socket {
  import opened Wrappers

  const AllowedOrigins: seq<string> := ["https://hack-event-silk.vercel.app", "http://localhost:5173", "http://localhost:3000"]

  /** The callback's answer: allowed, or an error. */
  datatype Decision = Allow | Reject(message: string)

  /** The `origin` callback: a missing or empty origin is allowed, as is one
      of the listed origins; any other is rejected with "Not allowed by CORS". */
  function CheckOrigin(origin: Option<string>): (d: Decision)
    ensures d.Allow? <==> origin.None? || origin.value == "" || origin.value in AllowedOrigins
    ensures d.Reject? ==> d.message == "Not allowed by CORS"
  {
    if origin.None? || origin.value == "" then Allow
    else if origin.value in AllowedOrigins then Allow
    else Reject("Not allowed by CORS")
  }

  /** Only list membership decides for a present origin. */
  lemma OnlyMembershipDecides(a: string, b: string)
    requires a != "" && b != ""
    requires a in AllowedOrigins <==> b in AllowedOrigins
    ensures CheckOrigin(Some(a)) == CheckOrigin(Some(b))
  {
  }

  /** Matching is exact: a trailing slash, another port or a longer host
      name is rejected. */
  lemma LookalikesRejected()
    ensures CheckOrigin(Some("http://localhost:5173/")).Reject?
    ensures CheckOrigin(Some("http://localhost:8080")).Reject?
    ensures CheckOrigin(Some("https://hack-event-silk.vercel.app.example.com")).Reject?
  {
  }
}

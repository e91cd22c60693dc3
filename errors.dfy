/** The Python exceptions that can escape the steps of the webhook handler. */
module Errors {

  datatype Exception =
    | KeyError        // a payload field is absent
    | AttributeError  // a method called on None: a null payload field, or the unset secret
    | TypeError       // hmac.compare_digest given a str with non-ASCII characters
    | ValueError      // the signature header does not unpack into two parts on '='
    | Forbidden       // abort(403) for a signature that does not verify
    | TrackerError    // jira_client.create_issue failed
    | RequestError    // requests.post of the confirmation comment failed
}

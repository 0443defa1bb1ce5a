# Cosential Compass client — a verified model

`CompassClient` (compass/client.py) is a thin client for the Cosential Compass
CRM REST API. Its companies, contacts, projects and opportunities all go
through one transport method, `_request`. That method JSON-encodes a dict
body and merges the caller's headers with the two mandatory headers
(`Content-Type: application/json` and `x-compass-token`). It sends the request
to `https://<endpoint>.cosential.com/api/<resource>`. A response that is not
ok raises `CompassClientException`, which carries the status code, the reason
and the response text; any other response is returned. On top of `_request`,
every entity method is a URL template plus a body shape. The `get_E_iterator`
generators page through `get_E_list` 250 records at a time until a page comes
back empty.

The model is in Dafny. It is split into these modules:

- `Json` (json.dfy): JSON values; records as `map<string, Value>`. `json.dumps`
  and `str()` of a list or dict are foreign routines, so they are the two fields
  of a `Codec` value, and nothing is assumed about them.
- `Text` (text.dfy): `str()` of an integer and its inverse on decimal text, Python's
  `'{0}'.format(v)`, and `split`/`join`. These show that a path can be read back
  into its segments.
- `Transport` (transport.dfy): the client (a datatype, because the source never
  updates it after construction; its token and endpoint default to None and
  "compass", as in the constructor), `default_headers` and `_check_for_errors`.
  `_request` appears twice. The functions `Prepare` and `Respond` are its
  specification, with header merging defined key by key. The method `Perform`
  is the source's step-by-step version: it copies the caller's headers, then
  updates the copy. The HTTP call is an oracle `send: HttpRequest -> Response`.
- `Resources` (resources.dfy): each resource method is written once for all
  entities. An `Entity` is its path name, its id key, whether it has a search,
  its sub-resources and its create shape. The four entities are constants.
- `Pagination` (pagination.dfy): the iterator as a loop. It takes a list-call
  oracle and a page index known to end the iteration, used only by the specification.
- `UserToken` (user_token.dfy): `get_user_token` as written, and as it was
  evidently meant to behave (see Findings).

## Model

| member | source | states |
|---|---|---|
| `Text.IntToDecimal` | compass/client.py:309-310 | `str(n)` of a status code or id is non-empty, starts with '-' exactly when n is negative, every other character is a decimal digit, and there is no leading zero except in "0" itself |
| `Text.DecimalRoundTrip` | compass/client.py:96 | `int(str(n)) == n` for every integer n, so an integer id written into a path can be read back |
| `Json.Get` | compass/client.py:160-161 | `record.get(key)` is the value under the key when there is one; any value other than None comes from the record |
| `Text.Format` | compass/client.py:96 | `'{0}'.format(v)` gives back an integer id when parsed, a string unchanged, and "None" for None |
| `Transport.Client.TokenText` | compass/client.py:47 | the token header's text is `'{0}'.format` of the token: the token itself, or "None" when there is none |
| `Transport.Client.DefaultHeaders` | compass/client.py:43-48 | the default headers are exactly `Content-Type: application/json` and `x-compass-token` set to the token's text ("None" when there is no token) |
| `Transport.EncodeData` | compass/client.py:64-65 | a dict body becomes the JSON text of that dict; a text or absent body is sent unchanged; no dict is ever sent |
| `Transport.MergeHeaders` | compass/client.py:66-70 | the sent headers hold every caller key and both defaults; a default wins on a shared key; every other key keeps the caller's value; no headers or empty headers give exactly the defaults |
| `Transport.Url` | compass/client.py:71 | the URL is "https://", the endpoint, ".cosential.com/api/", then the resource, in that order |
| `Transport.UrlDeterminesResource` | compass/client.py:71 | two resources that give the same URL on one endpoint are equal |
| `Transport.Prepare` | compass/client.py:64-71 | the request descriptor: verb, params and auth pass through; the URL follows the template; the body is encoded; both mandatory headers are present with their values; caller headers are kept unless overridden |
| `Transport.CheckForErrors` | compass/client.py:39-41 | an exception exactly when the response is not ok, and it carries that response's status code, reason and text |
| `Transport.Respond` | compass/client.py:72-74 | `_request` returns the server's response unchanged when it is ok, and raises with that response's fields otherwise |
| `Transport.Perform` | compass/client.py:50-74 | the step-by-step `_request` (copy the headers, update the copy, rebind the body, one call, check) gives the same outcome as `Respond` |
| `Transport.ClientError.ToString` | compass/client.py:307-310 | read back by position, the message is the status code's decimal text, ": ", the reason, and then " - " and the text exactly when the text is non-empty |
| `Transport.ErrorTextGivesStatus` | compass/client.py:307-310 | the status code is recovered by reading the message up to its first ':' |
| `Resources.UserCall` | compass/client.py:77-78 | `get_user` is a plain GET (no params, body, headers or auth) of `user/` |
| `Resources.SchemaCall` | compass/client.py:92-93 | `get_E_schema` is a plain GET whose path is the entity's name followed by `/schema/` |
| `Resources.ItemCall` | compass/client.py:95-96 | `get_E(id)` is a plain GET of `E/` then the formatted id: an integer id reads back from the path and the path has no trailing slash; a string id appears as is; None appears as "None" |
| `Resources.ListCall` | compass/client.py:98-109 | `get_E_list` GETs `E/` with exactly the parameters `size` = limit and `from` = offset, and no body or extra headers |
| `Resources.SearchCall` | compass/client.py:119-125 | `search_E(query)` is a plain GET of `E/search?q=` followed by the query character for character |
| `Resources.SubresourceCall` | compass/client.py:127-158 | a sub-resource getter (the company getters here, and the contact getters at compass/client.py lines 202-212 through the same member) is a plain GET of `E/`, the id, then `/sub/`; an integer id reads back from between the two |
| `Resources.UpdateCall` | compass/client.py:160-161 | `update_E` PUTs the record as a dict to `E/<id>/`, where an integer id field reads back from the path and a missing one gives "None" |
| `Resources.CreateCall` | compass/client.py:163-164 | `create_E` POSTs to `E/`: the JSON text of `[record]` for a list-of-one entity, the record as a dict for a bare-record entity |
| `Resources.CompaniesWellFormed` | compass/client.py:91-164 | companies: path `companies`, id key `CompanyId`, a search, eleven sub-resource getters, create sends `[record]`; path names read back |
| `Resources.ContactsWellFormed` | compass/client.py:166-218 | contacts: path `contacts`, id key `ContactId`, a search, four sub-resource getters, create sends `[record]`; path names read back |
| `Resources.ProjectsWellFormed` | compass/client.py:220-260 | projects: path `projects`, id key `ProjectId`, a search, no sub-resource getters, create sends `[record]`; path names read back |
| `Resources.OpportunitiesWellFormed` | compass/client.py:262-294 | opportunities: path `opportunities`, id key `OpportunityId`, no search, no sub-resource getters, create sends the bare record; path names read back |
| `Resources.GetRequest` | compass/client.py:77-78 | a plain GET (user, schema, item, search, sub-resource) sends no params, no body, and exactly the two default headers |
| `Resources.ListRequest` | compass/client.py:98-109 | `get_E_list(limit, offset)` GETs `E/` with params exactly `{size: limit, from: offset}`; the defaults are 50 and 0 |
| `Resources.SchemaPathSegments` | compass/client.py:92-93 | the schema path splits into the entity, "schema" and a trailing empty segment |
| `Resources.ItemPathSegments` | compass/client.py:95-96 | the item path splits into the entity and the id, with no trailing slash, and the id reads back |
| `Resources.SubresourcePathSegments` | compass/client.py:127-158 | a sub-resource path (company getters here, contact getters at compass/client.py lines 202-212 alike) splits into entity, id, sub-resource and a trailing empty segment, and the id reads back |
| `Resources.SearchPathSegments` | compass/client.py:119-125 | for every query, the search path is `E/search` (which holds no '?'), then '?', then `q=` and the query verbatim, with no escaping; a query without '?' is exactly the part after the path's only '?' |
| `Resources.UpdateRequest` | compass/client.py:160-161 | `update_E` PUTs the record JSON-encoded as one object, with only the two default headers; a record without its id key goes to `E/None/` |
| `Resources.UpdatePathSegments` | compass/client.py:160-161 | for a record whose id field is an integer, the update path splits into the entity, that id and a trailing empty segment, and the id reads back |
| `Resources.CreateRequest` | compass/client.py:163-164 | `create_E` POSTs to `E/`; companies, contacts and projects send the JSON text of `[record]`, and opportunities send the record encoded as one object |
| `Resources.CreateShapesDiffer` | compass/client.py:293-294 | with an injective serialiser, the same record created as a company and as an opportunity gives different bodies |
| `Pagination.YieldPage` | compass/client.py:114-115 | yielding a page one item at a time leaves the earlier items in place and appends the page's items in order |
| `Pagination.Iterate` | compass/client.py:111-117 | call k asks for 250 records at offset 250*k; all pages before the last are non-empty and did not raise; the last is empty or raised; the items are those pages' items in order; an exception is reported only when the last page raised |
| `Pagination.PageCall` | compass/client.py:112-113 | page k is a GET of `E/` with parameters exactly `size` = 250 and `from` = 250*k |
| `Pagination.ListFetch` | compass/client.py:113 | a list call made through `_request` raises exactly when its response is not ok, with that response's error, and otherwise gives the decoded response text |
| `Pagination.PageCallOffsets` | compass/client.py:112-113 | page k is requested at `E/` with size 250 and from 250*k |
| `Pagination.CollectedOrder` | compass/client.py:114-115 | the items of pages 0 to k-1 come first, and page k's items follow them directly |
| `Pagination.ThreePages` | compass/client.py:111-117 | a full page, then a page of 3, then an empty page: exactly three calls at offsets 0, 250 and 500, and 253 items in order, because a short page does not stop the loop |
| `UserToken.FirstUserToken` | compass/client.py:89 | the token is the `UserToken` field of the first element, defined only for a non-empty list whose first element is a dict |
| `UserToken.UserTokenCall` | compass/client.py:80-86 | the bootstrap call GETs `user/` with basic authentication and exactly the firm id and API key headers |
| `UserToken.UserTokenRequest` | compass/client.py:80-86 | the bootstrap GET of `user/` carries basic authentication, the firm id and API key headers, and the two defaults |
| `UserToken.GetUserToken` | compass/client.py:80-89 | as written: a response that is not ok raises with that response's fields; an ok one gives the first element's `UserToken` (None when the field is missing) |
| `UserToken.GetUserTokenNoneCases` | compass/client.py:86-89 | as written, `get_user_token` never takes the `return None` at line 88, because a response that is not ok raises; it returns Python's None exactly when an ok reply's first element has no `UserToken` field, or has it set to null |
| `UserToken.RefusedLoginRaises` | compass/client.py:86-88 | a 401 reply makes `get_user_token` raise with status 401 instead of returning None |
| `UserToken.GetUserTokenIntended` | compass/client.py:87-89 | corrected: a response that is not ok gives line 88's None; an ok one gives the first element's `UserToken` |
| `UserToken.GetUserTokenIntendedOutcome` | compass/client.py:87-89 | the corrected version takes line 88's `return None` exactly for a response that is not ok; it returns Python's None exactly then or when the reply's first element has no `UserToken` field, or has it set to null; it never raises the client exception and agrees with the source on success |

## Findings

| source | as written | input that shows it | evidently intended | confidence | as-written member | corrected member |
|---|---|---|---|---|---|---|
| compass/client.py:86-88 | `get_user_token` calls `_request`, which already raises on a response that is not ok, so the following `if not response.ok: return None` can never run | a login refused with status 401 | return None for a refused login, as line 88 and the `is None` check in get_user_token.py:31 expect | high; not executed | `UserToken.GetUserToken` (shown by `UserToken.RefusedLoginRaises`) | `UserToken.GetUserTokenIntended` (proved in `UserToken.GetUserTokenIntendedOutcome`) |

## Left out

- The HTTP call (`requests.request`) is the oracle `send`. `HTTPBasicAuth` is the `BasicAuth` value. `**kwargs` other than `auth` are not modelled.
- `json.dumps`, and `str()` of a list or dict, are the unconstrained functions of `Codec`. `response.json()` is left out of the single-call resource methods: they are modelled up to the request they send and the `Outcome` of `_request`. In the iterator and `get_user_token`, decoding is a total oracle (`decodePage`, `decode`), so a reply that is not JSON, on which `.json()` raises `ValueError` and ends the iterator or `get_user_token`, is not modelled.
- `__init__`'s debug branch (HTTP-level debug output and logging setup) is a global side effect on the runtime and is left out. The constructor is the `Client` datatype constructor, whose token and endpoint default to None and `DEFAULT_ENDPOINT` ("compass"); the codec comes first because it has no counterpart among the source's arguments.
- The iterator is a lazy generator in the source. `Pagination.Iterate` runs it to its end, so a consumer that stops early is not modelled. The source loops for ever when no page is empty or raises. The model therefore requires a page index known to end the iteration.
- `Pagination.Iterate` does not model a page that is not a list (the source iterates over whatever `.json()` returns).
- A response text of None (which `__str__` treats as empty) is modelled as the empty string. Header values and credentials that are None (the defaults of `get_user_token`) are not modelled; they are strings.
- `CompassClientException`'s `**kwargs` merge into the instance, and the exception's message argument (the response text), are not modelled beyond the `text` field.
- `limit` and `offset` are integers. The API's cap of 250 on `limit` is not enforced by the source, and the model does not enforce it either.
- JSON numbers with a fraction are not a case of `Json.Value`. Records and pages can hold them in the source; no property proved here depends on the form of a record field or a page item.
- `data` bodies other than None, text or dict are not modelled; the source's callers pass only those.
- The caller's headers dict is never changed by `_request` (tests/test_client.py:87-88). In the model this holds by construction, because maps are values; no aliasing is modelled, so it is not a proved property.
- The search query is pasted into the path without URL escaping, exactly as in the source. No escaping is modelled.
- The command-line scripts (get_compass_token.py, get_user_token.py) and the test doubles are not part of this model.

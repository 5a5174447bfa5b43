# User directory client, request layer

A Dafny model of `YEasyDingTalk\UserV2\Client`, the user directory client of a
DingTalk SDK. Every public method of the client turns its arguments into one
call on an injected transport, either a keyed GET or a JSON POST. The call has a
fixed endpoint path and an ordered key/value body. Whatever the transport
returns is handed back unchanged.

The model has two modules:

- `PhpArray` (`php_array.dfy`) models the PHP array features the client uses.
  `Assoc` is an ordered array whose string keys are distinct. `Lookup` reads
  `$b[$k]` when the key exists, also when its value is null. `Union` is the `+` operator, where the left operand's keys win.
  `Implode` is `implode` with a one-character glue. `Explode` splits a string
  at the glue. Imploding an exploded string always gives the string back.
  Exploding an imploded list gives the list back only when the list is
  non-empty and no piece contains the glue. Otherwise lists collide:
  `[]`, `[""]` and `""` all send `""`, and `["a,b"]` sends the same as `["a", "b"]`.
- `UserV2` (`user_client.dfy`) holds one function per client method, each
  returning the `Request` that the method hands to the transport. It also
  holds a table of the remote operations (`VerbOf`, `PathOf`, `WireKeys`).
  Every builder is proved to `Conform` to that table: the right primitive,
  the right path and exactly the keys `WireKeys` lists, in order. Each builder
  also states the value sent under each key; for `update` the whole body is
  stated as a closed form. PHP default arguments are Dafny
  default parameter values. `GetUsers(d)` is therefore the call `getUsers($d)`.

A caller's `userid` attribute that conflicts with the explicit one is not
reported. The code (`src/UserV2/Client.php:148`) silently keeps the explicit
identifier through PHP's `+`, and `UpdatePrecedence` and
`UpdateDropsCallerUserid` prove that precedence.

## Model

| member | source | states |
|---|---|---|
| `UserV2.Get` | src/UserV2/Client.php:26-32 | POSTs to `topapi/v2/user/get` with exactly the keys `userid`, `language`; the user id is sent, and the language is sent when given, otherwise null |
| `UserV2.GetLanguage` | src/UserV2/Client.php:26-31 | with no language the whole request is `userid` then `language => null`; a given language is forwarded as is |
| `UserV2.GetUserIds` | src/UserV2/Client.php:41-44 | POSTs to `topapi/user/listid` with exactly the key `dept_id`, carrying the department id |
| `UserV2.GetUsers` | src/UserV2/Client.php:57-67 | POSTs to `topapi/user/listsimple` with exactly the six listing keys in order; each argument travels under its key, the offset under `cursor`, and `contain_access_limit` is false |
| `UserV2.GetUsersDefaults` | src/UserV2/Client.php:57-66 | with every optional argument omitted the body is `dept_id`, `cursor=0`, `size=50`, `order_field='custom'`, `language='zh_CN'`, `contain_access_limit=false`, in that order |
| `UserV2.GetDetailedUsers` | src/UserV2/Client.php:80-90 | POSTs to `topapi/v2/user/list` with the same six keys and values as `GetUsers` |
| `UserV2.ListingsDifferOnlyInPath` | src/UserV2/Client.php:57-89 | for all arguments the two listings use the same primitive and the same body, and only their paths differ; a lookup of `cursor` gives the offset and of `contain_access_limit` gives false |
| `UserV2.Administrators` | src/UserV2/Client.php:97-100 | GETs `user/get_admin` with no parameters |
| `UserV2.AdministratorScope` | src/UserV2/Client.php:109-112 | GETs `topapi/user/get_admin_scope` with the single parameter `userid` |
| `UserV2.GetUseridByUnionid` | src/UserV2/Client.php:121-124 | GETs `user/getUseridByUnionid` with the single parameter `unionid` |
| `UserV2.Create` | src/UserV2/Client.php:133-136 | POSTs to `user/create` with the caller's attributes as the body, verbatim |
| `UserV2.Update` | src/UserV2/Client.php:146-149 | POSTs to `user/update`; the body is the explicit `userid` followed by every attribute except `userid`, in the caller's order, so the keys sent are `userid` plus the attributes' keys, each once |
| `UserV2.UpdatePrecedence` | src/UserV2/Client.php:146-149 | a lookup of `userid` in the body gives the explicit id and a lookup of any other key gives the caller's value |
| `UserV2.UpdateDropsCallerUserid` | src/UserV2/Client.php:148 | a caller's `userid` attribute that differs from the explicit one is not in the body |
| `UserV2.Delete` | src/UserV2/Client.php:158-161 | GETs `user/delete` with the single parameter `userid` |
| `UserV2.GetUserByCode` | src/UserV2/Client.php:170-173 | GETs `user/getuserinfo` with the single parameter `code` |
| `UserV2.AddRoles` | src/UserV2/Client.php:183-189 | POSTs to `topapi/role/addrolesforemps` with exactly the keys `userIds` then `roleIds`, each carrying its normalised argument |
| `UserV2.RemoveRoles` | src/UserV2/Client.php:199-205 | POSTs to `topapi/role/removerolesforemps` with exactly the keys `userIds` then `roleIds`, each carrying its normalised argument |
| `UserV2.RolesDifferOnlyInPath` | src/UserV2/Client.php:183-205 | for all arguments `addRoles` and `removeRoles` use the same primitive and the same body, and only their paths differ |
| `UserV2.NormaliseLaws` | src/UserV2/Client.php:185-186 | an empty list becomes `""`, a string passes through unchanged, and normalising an already-normalised value is the identity |
| `UserV2.Normalise` | src/UserV2/Client.php:185-186 | `is_array($x) ? implode(',', $x) : $x`; its contract states that a non-empty list of comma-free ids can be recovered from the wire string by splitting on commas (the other laws are in `NormaliseLaws` and `NormaliseCollisions`) |
| `UserV2.NormaliseCollisions` | src/UserV2/Client.php:185-186 | the empty list, a list holding one empty id and the empty string all send `""`; `['a,b']` sends the same as `['a', 'b']` |
| `UserV2.RolesAcceptPreJoined` | src/UserV2/Client.php:183-205 | a list and the same list already joined with commas give the same request, in either argument position and for both methods |
| `UserV2.RolesExamples` | src/UserV2/Client.php:183-189 | `addRoles(['u1','u2'], 'r1')` sends `userIds='u1,u2'`, `roleIds='r1'`; `addRoles('u1,u2', ['r1','r2'])` sends `userIds='u1,u2'`, `roleIds='r1,r2'` |
| `UserV2.GetCount` | src/UserV2/Client.php:214-217 | GETs `user/get_org_user_count` with the single parameter `onlyActive` carrying the flag |
| `UserV2.GetActivatedCount` | src/UserV2/Client.php:224-227 | GETs `user/get_org_user_count` with `onlyActive=1` |
| `UserV2.ActivatedCountIsCountOfActive` | src/UserV2/Client.php:214-227 | `getActivatedCount()` is exactly `getCount(1)`, and `getCount()` sends `onlyActive=0` |
| `UserV2.GetUserIdByPhone` | src/UserV2/Client.php:236-239 | POSTs to `topapi/v2/user/getbymobile` with the single key `mobile`, empty when omitted |
| `UserV2.GetInactiveUsers` | src/UserV2/Client.php:250-255 | POSTs to `topapi/inactive/user/get` with exactly `query_date`, `offset`, `size`, in order, carrying the arguments |
| `UserV2.PathsIdentifyOperations` | src/UserV2/Client.php:26-255 | no two remote operations share a path |
| `PhpArray.Union` | src/UserV2/Client.php:148 | PHP `+` keeps the left operand as the prefix of the result, and the result's keys are those of both operands, each once |
| `PhpArray.UnionIsOmit` | src/UserV2/Client.php:148 | `$a + $b` is `$a` followed by the entries of `$b` whose keys `$a` lacks, in `$b`'s order |
| `PhpArray.UnionLeftWins` | src/UserV2/Client.php:148 | a lookup in `$a + $b` gives `$a`'s value for `$a`'s keys and `$b`'s value otherwise |
| `PhpArray.Implode` | src/UserV2/Client.php:185-186 | `implode` with a one-character glue; exploding the result gives a non-empty list of glue-free pieces back (the other direction is `ImplodeExplode`) |
| `PhpArray.ImplodeExplode` | src/UserV2/Client.php:185-186 | imploding the explosion of any string gives the string back |

## Left out

- The transport (`$this->client`, inherited from `EasyDingTalk\Kernel\BaseClient`) is not part of this model. It covers HTTP, access tokens, signing and JSON encoding and decoding. The model stops at the request handed to it. Its response is opaque and is returned unchanged by every method, so the model has no response type.
- Transport and service failures are not modelled. They propagate unchanged, and this layer neither catches nor translates them.
- PHP's dynamic typing: each argument takes the type its doc comment declares. The doc comment of `delete` declares no type for `$userid`, so the model takes it as a string, as the other methods' `$userid` are. Ids, codes, dates and languages are strings. Department ids, offsets, sizes and the `onlyActive` flag are integers. The role arguments are a string or a list of strings. Values of other types are not modelled.
- Array keys are strings only. PHP's conversion of numeric string keys to integer keys does not arise for the fixed keys. For caller-supplied attributes it is not modelled.
- Nested attribute values for `create` and `update` are modelled as lists of values (`VList`), not as nested associative arrays.
- Concurrency is not modelled, because the client holds no state.

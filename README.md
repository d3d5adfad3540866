# Traefik route keys and rules, in Dafny

This project models the route-key and rule generator of the JupyterHub
Traefik proxy (`jupyterhub_traefik_proxy/traefik_utils.py`). JupyterHub
names each route with a route spec: a path form such as `/user/alice/`, or a
host form such as `host.tld/path`. For each spec, the generator computes:

- the Traefik v2 matching rule (`PathPrefix(...)`, or `Host(...) && PathPrefix(...)`),
  built from the percent-decoded spec;
- the alias that names both the route's router and its service;
- the six-field `RouteKeys` record. It holds the alias twice and the four
  key paths under which the route's service URL, service transport, router
  link and router rule are stored in a key-value store. With the separator
  `.`, two paths are dotted and unprefixed and the other two are empty.

It also models the normalisation of the configured key prefix
(`KVStorePrefix.validate`).

Every modelled operation is straight-line string code, so the model is made
of functions and lemmas in four modules:

- `Strings`: the Python string operations used (`startswith`, `endswith`,
  `join`, one-character `replace`, `split(c, 1)` with unpacking), and the
  constants `string.ascii_letters` and `string.digits`.
- `PercentDecoding`: `urllib.parse.unquote` as a `%XX` decoder, with an
  encoder as its partner.
- `Escapism`: the per-character structure of `escapism.escape`.
- `TraefikUtils`: the core.

Three consequences of the code are proved:

- Aliases can collide. The alias replaces every `/` by `-`
  (`jupyterhub_traefik_proxy/traefik_utils.py:46`), so `/a-b` and `/a/b` get the same alias, as
  `AliasSlashDashCollide` and `AliasNotInjective` show.
- With the Consul flag, prefix normalisation is not idempotent. It strips one
  leading `/` after adding the trailing one (`jupyterhub_traefik_proxy/traefik_utils.py:17-22`), so
  `//a/` becomes `/a/`, which then becomes `a/`
  (`ConsulPrefixNotIdempotent`). Without the flag it is idempotent
  (`ValidatePrefixIdempotent`).
- The reduced key set is chosen by the separator alone: `.` gives two dotted,
  unprefixed paths and two empty ones, and every other separator gives the
  `/` key-value paths (`jupyterhub_traefik_proxy/traefik_utils.py:98-111`, `SeparatorNotForwarded`).

## Model

| member | source | states |
|---|---|---|
| `TraefikUtils.SlashTerminated` | jupyterhub_traefik_proxy/traefik_utils.py:16-18 | the result ends with `/` and is the input, or the input plus one `/`; it is the input when the input already ends with `/` |
| `TraefikUtils.ValidatePrefix` | jupyterhub_traefik_proxy/traefik_utils.py:14-24 | without the Consul flag: ends with `/`, is the input or the input plus `/`, and is the input when that ends with `/`; with the flag: exactly one leading `/` is removed from the slash-terminated value when it has one, otherwise nothing is removed |
| `TraefikUtils.ValidatePrefixIdempotent` | jupyterhub_traefik_proxy/traefik_utils.py:15-18 | without the Consul flag, normalising twice gives the same as normalising once |
| `TraefikUtils.ConsulPrefixShape` | jupyterhub_traefik_proxy/traefik_utils.py:16-24 | with the Consul flag the result is empty or ends with `/` |
| `TraefikUtils.ConsulRootIsEmpty` | jupyterhub_traefik_proxy/traefik_utils.py:17-22 | with the Consul flag `/` becomes the empty prefix |
| `TraefikUtils.ConsulPrefixNotIdempotent` | jupyterhub_traefik_proxy/traefik_utils.py:17-22 | with the Consul flag `//a/` becomes `/a/` and `/a/` becomes `a/`, so normalising twice differs from normalising once |
| `TraefikUtils.GenerateRule` | jupyterhub_traefik_proxy/traefik_utils.py:27-39 | a spec whose decoding starts with `/` gives exactly ``PathPrefix(`<decoded>`)``; the result is an error exactly when the decoding neither starts with `/` nor contains one; the error value carries the spec, a model addition |
| `TraefikUtils.RuleHostForm` | jupyterhub_traefik_proxy/traefik_utils.py:33-38 | a spec that decodes to `h + "/" + p`, with `h` non-empty and free of `/`, gives exactly ``Host(`h`) && PathPrefix(`/p`)`` |
| `PercentDecoding.Unquote` | jupyterhub_traefik_proxy/traefik_utils.py:28 | `unquote` is the identity on strings without `%` and never lengthens a string |
| `PercentDecoding.UnquotePercentEncode` | jupyterhub_traefik_proxy/traefik_utils.py:28 | decoding undoes the model's ASCII-only encoder `PercentEncode`, for every string; `PercentEncode` writes `%XX` for characters below 0x80 and keeps the others literal, unlike Python's `quote`, which encodes them as UTF-8 bytes |
| `PercentDecoding.UnquoteNotIdempotent` | jupyterhub_traefik_proxy/traefik_utils.py:28 | decoding is not idempotent: `%2541` decodes to `%41`, which decodes to `A` |
| `Strings.SplitFirst` | jupyterhub_traefik_proxy/traefik_utils.py:35 | fails exactly when the separator is absent; otherwise it returns the text before and after a separator, and the part before contains no separator |
| `Strings.SplitFirstAtFirst` | jupyterhub_traefik_proxy/traefik_utils.py:35 | a decomposition around the first separator is the one the split returns |
| `Strings.ReplaceChar` | jupyterhub_traefik_proxy/traefik_utils.py:46 | same length as the input; each character equal to the old one is the new one, and every other character is unchanged |
| `Strings.Join` | jupyterhub_traefik_proxy/traefik_utils.py:55 | the joined string is at least as long as the first part plus one separator per neighbouring pair |
| `Strings.JoinLength` | jupyterhub_traefik_proxy/traefik_utils.py:55 | the joined string is exactly as long as all parts together plus one separator per neighbouring pair |
| `Strings.StartsWith` | jupyterhub_traefik_proxy/traefik_utils.py:29 | true exactly when the string is the prefix followed by the rest of the string |
| `Strings.EndsWith` | jupyterhub_traefik_proxy/traefik_utils.py:17 | true exactly when the string is the rest of the string followed by the suffix |
| `Strings.JoinFour` | jupyterhub_traefik_proxy/traefik_utils.py:55 | joining four parts puts the separator between each neighbouring pair |
| `Escapism.Escape` | jupyterhub_traefik_proxy/traefik_utils.py:46 | a string made only of safe characters passes through unchanged |
| `Escapism.EscapeAppend` | jupyterhub_traefik_proxy/traefik_utils.py:46 | escaping distributes over concatenation |
| `Escapism.EscapeAvoids` | jupyterhub_traefik_proxy/traefik_utils.py:46 | a character absent from the input and from every escape sequence is absent from the output |
| `TraefikUtils.AliasSafe` | jupyterhub_traefik_proxy/traefik_utils.py:43 | true exactly for the characters of `string.ascii_letters + string.digits + "-"` |
| `TraefikUtils.AliasBase` | jupyterhub_traefik_proxy/traefik_utils.py:44-46 | `/` becomes `-public`; any other spec becomes the spec with every `/` replaced by `-` and every other character kept in place; the result has no `/`; a spec made of `/` and safe characters gives a string of safe characters only |
| `TraefikUtils.GenerateAlias` | jupyterhub_traefik_proxy/traefik_utils.py:42-46 | the alias starts with the designator; `/` gives designator + `-public`; any other spec made of `/` and safe characters gives designator + the spec with every `/` turned into `-` |
| `TraefikUtils.AliasOfRoot` | jupyterhub_traefik_proxy/traefik_utils.py:44-45 | `/` gets the same alias as `/public` |
| `TraefikUtils.AliasSlashDashCollide` | jupyterhub_traefik_proxy/traefik_utils.py:46 | two specs that differ only by a `/` in place of a `-` get the same alias, for every such pair other than the root spec `/` against `-` |
| `TraefikUtils.AliasNotInjective` | jupyterhub_traefik_proxy/traefik_utils.py:46 | `/a-b` and `/a/b` are distinct specs with the same alias |
| `TraefikUtils.AliasIsNotDecoded` | jupyterhub_traefik_proxy/traefik_utils.py:28-46 | `/a%2Fb` and `/a/b` get the same rule, because the rule decodes the spec; they get different aliases, because the alias does not |
| `TraefikUtils.AliasHasNoSlash` | jupyterhub_traefik_proxy/traefik_utils.py:42-46 | with a designator and escape sequences free of `/`, the alias contains no `/` |
| `TraefikUtils.GenerateBackendEntry` | jupyterhub_traefik_proxy/traefik_utils.py:49-62 | with `/`: `<prefix>http/services/<alias>/loadbalancer`, followed by `/servers/0/url` when `url` is set, otherwise by `/serverstransport` when `weight` is set; with any other separator the same words joined by it, without prefix |
| `TraefikUtils.BackendEntryUrlWins` | jupyterhub_traefik_proxy/traefik_utils.py:56-60 | `url` takes precedence over `weight` |
| `TraefikUtils.BackendEntryDefault` | jupyterhub_traefik_proxy/traefik_utils.py:52-62 | with neither flag the key ends with separator + `loadbalancer` |
| `TraefikUtils.GenerateFrontendBackendEntry` | jupyterhub_traefik_proxy/traefik_utils.py:65-66 | the key starts with the prefix, ends with `/service`, and after the prefix is `http/routers/<alias>/service`, whatever the separator |
| `TraefikUtils.GenerateFrontendRuleEntry` | jupyterhub_traefik_proxy/traefik_utils.py:69-78 | with `/`: `<prefix>http/routers/<alias>/rule`; with any other separator: `http`, `routers` and alias joined by it, without prefix |
| `TraefikUtils.GenerateRouteKeys` | jupyterhub_traefik_proxy/traefik_utils.py:81-120 | both alias fields are the alias of the spec; for any separator but `.`, the four paths are `P+"http/services/"+A+"/loadbalancer/servers/0/url"`, `P+"http/services/"+A+"/loadbalancer/serverstransport"`, `P+"http/routers/"+A+"/service"` and `P+"http/routers/"+A+"/rule"`; for `.`, they are `"http.services."+A+".loadbalancer"` and `"http.routers."+A`, and the other two are empty |
| `TraefikUtils.SeparatorNotForwarded` | jupyterhub_traefik_proxy/traefik_utils.py:98-102 | every separator other than `.` gives the same keys as `/` |
| `TraefikUtils.DottedKeysIgnorePrefix` | jupyterhub_traefik_proxy/traefik_utils.py:103-111 | with `.` the keys do not depend on the prefix |
| `TraefikUtils.KvPathsDistinct` | jupyterhub_traefik_proxy/traefik_utils.py:98-102 | in the key-value layout, the four paths of a route are pairwise distinct |
| `TraefikUtils.KvUrlPathDeterminesAlias` | jupyterhub_traefik_proxy/traefik_utils.py:99 | under one prefix, two routes with the same URL key have the same alias |

## Left out

- `atomic_writing`, `persist_routes`, `persist_static_conf` and `load_routes`
  (traefik_utils.py:123-167) are left out. They are file-system plumbing
  over temporary files, `os.replace` and `os.unlink`, plus TOML
  serialisation from a foreign library.
- `Escapism.Escape`: escapism's escape sequence for one unsafe character is
  not derived. It is the parameter `esc`, passed through `GenerateAlias` and
  `GenerateRouteKeys`. Only the per-character structure is modelled.
  escapism's removal of its escape character from the safe set is not
  modelled; `_` is not among the safe characters used here anyway.
- `PercentDecoding.Unquote`: each decoded byte becomes the character with
  the same code. This matches Python for bytes below 0x80. Python gathers
  bytes of 0x80 and above and decodes them as UTF-8, replacing invalid
  sequences; the model does not.
- The traitlets `Unicode` machinery is left out: `super().validate` is the
  identity on strings. The test `"Consul" in type(obj).__name__` is the
  boolean `isConsul`.
- The proxy object is only its `kv_traefik_prefix` string.
- `separator is "/"` is modelled as string equality, which is what CPython's
  interned literal gives.
- `url is True` and `weight is True` are modelled as booleans. Truthy
  non-boolean arguments, which the identity test would reject, are not
  modelled.
- `TraefikUtils.GenerateRule`: Python's `ValueError` from the failed
  unpacking is the error value `MalformedRouteSpec`. The route spec it
  carries is an addition of the model: the Python error says only that there
  were not enough values to unpack. Its message text is not modelled.
- The in-memory routing table, the key-value commit and the locking of the
  wider system are left out. No code for them is part of this model.
- `tests/test_traefik_api_auth.py` is left out: it is an HTTP test against
  a running Traefik.
- `examples/jupyterhub_config_toml.py` is left out: it holds only
  configuration assignments.

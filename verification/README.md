# Botblock front end: a Dafny model of its logic

Botblock is a web front end for a subscription marketplace. Website operators (content creators) offer time-boxed access plans to their sites, and buyers pay for them with stablecoins through a smart contract. Wallet login goes through the Web3Auth SDK and contract calls go through ethers. This project models the logic the front end itself owns:

- **Struct mapper** (`Parsers`): turns the contract's plan and order structs into view models. The integer fields become base-10 strings (`Numerals`) and every other field is copied. The model proves that the mapping can be read back: a struct maps and reads back to itself, and every plan or order with canonical numeric strings is the image of exactly one struct.
- **Session context** (`Web3AuthContext`): class `Web3AuthProvider` holds the session record as one `state` field, the same shape as the React `useState` record. Its methods are `initProvider`, `connectWeb3Auth`, `disconnectWeb3Auth` and `setPlanData`. Each one states the whole new record as "these fields set, the rest kept", and each keeps the invariant `WellFormed`: a connected session has a provider, an address and a contract handle bound to that provider's signer. `getPlans` is a function that is proved equal, element by element, to the struct mapper.
- **Partner landing form** (`UrlPattern`, `PartnerLanding`): the regular expression `^(https?|ftp):\/\/[^\s/$.?#].[^\s]*$` with the `i` flag is a string predicate. It is proved equal to a language definition written position by position: a scheme of some length, `://`, one character outside `\s/$.?#`, one character that is not a line terminator, then no whitespace up to the end. Class `LandingForm` covers `handleSetUrl`, `handleOnSubmit`, the Submit button and the Enter key. Its invariant is that the stored website is either empty or passes the URL check.
- **Subscribe page** (`Subscribe`): the token-label table, the Duration and Price cells, and the table rows (index 0 is skipped). `handleOnPurchaseAttempt` is a method that appends toast and purchase effects to a log, with counting lemmas on that log.
- **Robots context** (`RobotsContext`): `getRobotsTxt` stores the body on status 200 and otherwise rejects with the prefixed message. A status outside 2xx is rejected by axios's default status check before the code's own status check runs; the code's own status error is reached only for 201 to 299. The status can be read back from either message.

Calls to the wallet SDK, the chain client and the HTTP service are inputs to the model. `Call<T>` is either a returned value or a rejection with its reason, and each async operation settles as a `Completion`.

The code differs from what one might expect in these points:
- `disconnectWeb3Auth` sets `isConnected` to false only after `logout()` resolves. A rejected logout leaves the session connected.
- `disconnectWeb3Auth` does not clear the address, the profile or the contract handles.
- A rejected `getAllPlans()` call is not turned into `undefined`.

## Model

| member | source | states |
|---|---|---|
| `Numerals.ToDecimal` | packages/nextjs/utils/parsers.ts:6-9 | `toString()` of an on-chain integer is a canonical numeral: only digits, at least one, no leading zero; a single digit exactly below ten |
| `Numerals.ValueOfToDecimal` | packages/nextjs/utils/parsers.ts:6-9 | reading the decimal string back gives the original number |
| `Numerals.ToDecimalValueOf` | packages/nextjs/utils/parsers.ts:6-9 | every canonical numeral is the rendering of the number it denotes (the other direction of the correspondence) |
| `Numerals.ToDecimalInjective` | packages/nextjs/utils/parsers.ts:6-9 | two numbers render the same exactly when they are equal |
| `Types.Display` | packages/nextjs/pages/subscribe/index.tsx:74-81 | a rendered numeric field reads back as its number; a string field renders as itself |
| `Parsers.ParsePlanStruct` | packages/nextjs/utils/parsers.ts:4-11 | `contentCreator`, `paymentTokenAddress` and `uri` are copied; `expirationBlock`, `planID` (renamed `planId`) and `price` become canonical decimal strings that read back as the struct's numbers |
| `Parsers.ParseOrderStruct` | packages/nextjs/utils/parsers.ts:13-18 | `buyer` and `status` are copied, `orderId` becomes a canonical decimal string of its number, and the embedded plan is the plan mapper's image |
| `Parsers.PlanRoundTrip` | packages/nextjs/utils/parsers.ts:4-11 | mapping a plan struct and reading it back gives the same struct |
| `Parsers.PlanReadBack` | packages/nextjs/utils/parsers.ts:4-11 | any plan that reads back to a struct is exactly that struct's mapping |
| `Parsers.OrderRoundTrip` | packages/nextjs/utils/parsers.ts:13-18 | mapping an order struct and reading it back gives the same struct |
| `Parsers.OrderReadBack` | packages/nextjs/utils/parsers.ts:13-18 | any order that reads back to a struct is exactly that struct's mapping |
| `Parsers.PlanIdsStayDistinct` | packages/nextjs/utils/parsers.ts:7 | mapped plans share a `planId` string exactly when their structs share `planID` |
| `UrlPattern.UrlRegexTest` | packages/nextjs/pages/unlock/partner/landing.tsx:47-48 | an accepted string is at least eight characters long, starts with `h` or `f` in either case, and contains no line terminator |
| `UrlPattern.UrlRegexTestMatchesPattern` | packages/nextjs/pages/unlock/partner/landing.tsx:47-48 | the regex test accepts a string exactly when some prefix is `http`, `https` or `ftp` in any case and the rest is `://`, a character that is not whitespace, `/`, `$`, `.`, `?` or `#`, a character that is not a line terminator, then only non-whitespace |
| `UrlPattern.AcceptedShape` | packages/nextjs/pages/unlock/partner/landing.tsx:47 | an accepted string begins with one of the three schemes, in any letter case, followed by `://` and at least two more characters |
| `UrlPattern.SecondHostCharacterMayBeSpace` | packages/nextjs/pages/unlock/partner/landing.tsx:47 | `http://a b` is accepted, because the second host character is matched by `.` |
| `UrlPattern.LaterSpaceRejected` | packages/nextjs/pages/unlock/partner/landing.tsx:47 | `http://ab c` is rejected |
| `UrlPattern.FirstHostCharacterSpaceRejected` | packages/nextjs/pages/unlock/partner/landing.tsx:47 | `http:// ab` is rejected |
| `UrlPattern.OnlyHttpApplies` | packages/nextjs/pages/unlock/partner/landing.tsx:47 | for input beginning `http:`, only the `http` alternative can match, so acceptance depends only on what follows it |
| `UrlPattern.SchemeCaseIgnored` | packages/nextjs/pages/unlock/partner/landing.tsx:47 | `HTTPS://x.io` and `Ftp://files` are accepted |
| `UrlPattern.OtherSchemeRejected` | packages/nextjs/pages/unlock/partner/landing.tsx:47 | `mailto://someone` is rejected |
| `UrlPattern.ShortOrDottedHostRejected` | packages/nextjs/pages/unlock/partner/landing.tsx:47 | a one-character host and a host starting with `.` are rejected |
| `Web3AuthContext.InitialOptions` | packages/nextjs/context/Web3AuthContext.tsx:39-53 | the SDK options use the client id from the environment or `""`, and the Arbitrum Goerli chain `0x66eed` with its RPC endpoint |
| `Web3AuthContext.Web3AuthProvider.constructor` | packages/nextjs/context/Web3AuthContext.tsx:39-58 | the initial state holds only the SDK options; `isConnected`, `address`, `plan` and the other fields are absent |
| `Web3AuthContext.Web3AuthProvider.InitWeb3Auth` | packages/nextjs/context/Web3AuthContext.tsx:60-62 | settles as `initModal()` settles and changes no state |
| `Web3AuthContext.Web3AuthProvider.InitProvider` | packages/nextjs/context/Web3AuthContext.tsx:64-68 | sets only `subsContract`, to a read-only handle on the marketplace address; every other field is kept |
| `Web3AuthContext.Web3AuthProvider.ConnectWeb3Auth` | packages/nextjs/context/Web3AuthContext.tsx:70-88 | a rejected `connect`, `getUserInfo` or `getAddress` propagates with the state unchanged; a null provider resolves with the state unchanged; otherwise `isConnected` becomes true and provider, username, email, address and both contract handles are set, while `web3Auth` and `plan` are kept |
| `Web3AuthContext.Web3AuthProvider.GetPlans` | packages/nextjs/context/Web3AuthContext.tsx:99-112 | `undefined` exactly when there is no contract handle; otherwise a list of the same length and order as `getAllPlans()`, each element equal to `parsePlanStruct` of the struct |
| `Web3AuthContext.Web3AuthProvider.DisconnectWeb3Auth` | packages/nextjs/context/Web3AuthContext.tsx:114-117 | after `logout()` resolves only `isConnected` changes, to false; a rejected logout propagates with the state unchanged |
| `Web3AuthContext.Web3AuthProvider.SetPlanData` | packages/nextjs/context/Web3AuthContext.tsx:119-121 | sets `plan` and keeps every other field |
| `Web3AuthContext.DisconnectKeepsIdentity` | packages/nextjs/context/Web3AuthContext.tsx:70-117 | calling `connectWeb3Auth` with every call succeeding and then `disconnectWeb3Auth` with a successful logout leaves a well-formed, disconnected session that still holds the address, the profile and the signer-bound contract |
| `PartnerLanding.Draft` | packages/nextjs/pages/unlock/partner/landing.tsx:32-38 | the drafted plan has the address or `""` as creator, expiration 1, no plan id, and the given price, token and website; without a plan id it cannot be read back as a plan from the chain |
| `PartnerLanding.LandingForm.constructor` | packages/nextjs/pages/unlock/partner/landing.tsx:21-26 | the form starts with `uri` empty, price 1, the KIT token, duration `1Month`, not loading and valid |
| `PartnerLanding.LandingForm.HandleSetUrl` | packages/nextjs/pages/unlock/partner/landing.tsx:42-51 | empty input marks the field valid and keeps `uri`; other input sets `isValid` to the regex result and replaces `uri` only when it passes; the stored `uri` stays empty or valid |
| `PartnerLanding.LandingForm.SetPrice` | packages/nextjs/pages/unlock/partner/landing.tsx:80 | the price input sets `price` |
| `PartnerLanding.LandingForm.SetDuration` | packages/nextjs/pages/unlock/partner/landing.tsx:97 | the duration select sets `duration` |
| `PartnerLanding.LandingForm.SetPaymentTokenAddress` | packages/nextjs/pages/unlock/partner/landing.tsx:122 | the token select sets `paymentTokenAddress` |
| `PartnerLanding.LandingForm.HandleOnSubmit` | packages/nextjs/pages/unlock/partner/landing.tsx:30-41 | sets `isLoading`; the new session is the old one with `plan` set to the draft built from the old address and the form's price, token and website, whatever the duration |
| `PartnerLanding.LandingForm.SubmitShown` | packages/nextjs/pages/unlock/partner/landing.tsx:144 | the Submit button is rendered only for a connected user and a website that passes the URL check; never for an empty website |
| `PartnerLanding.LandingForm.ClickSubmit` | packages/nextjs/pages/unlock/partner/landing.tsx:144-151 | the button acts only when it is rendered and the form is not loading; then the new session is the old one with `plan` set to the draft, whose website passes the check; otherwise nothing changes |
| `PartnerLanding.LandingForm.KeyUp` | packages/nextjs/pages/unlock/partner/landing.tsx:69 | Enter submits with no check of website, validity, connection or loading: the new session is the old one with `plan` set to the draft; other keys change nothing |
| `PartnerLanding.EnterSubmitsEmptyWebsite` | packages/nextjs/pages/unlock/partner/landing.tsx:69 | pressing Enter on a fresh form stores a draft with an empty website and the KIT token although the Submit button is hidden |
| `Subscribe.TokenLabel` | packages/nextjs/pages/subscribe/index.tsx:13-19 | the five known addresses map to DAI, USDT, USDC, ApeCoin and Keyko Innovation Token; any other address has no label |
| `Subscribe.TokenLabelsDistinct` | packages/nextjs/pages/subscribe/index.tsx:13-19 | no two known addresses share a label |
| `Subscribe.DurationText` | packages/nextjs/pages/subscribe/index.tsx:77 | the cell is the value and ` Month`, plus `s` exactly unless the value is the string `"1"` |
| `Subscribe.MappedDurationText` | packages/nextjs/pages/subscribe/index.tsx:77 | for a plan from the chain the singular appears exactly when the duration number is 1 |
| `Subscribe.PriceText` | packages/nextjs/pages/subscribe/index.tsx:80-82 | the cell is the price, a space, and the token label, or nothing for an unknown address |
| `Subscribe.RowOf` | packages/nextjs/pages/subscribe/index.tsx:73-91 | a row shows the plan's website and creator, a Duration cell starting with the value and ` Month`, a Price cell starting with the price and a space, and its button buys that plan |
| `Subscribe.Cells` | packages/nextjs/pages/subscribe/index.tsx:70-72 | one entry per plan; the entry is a row exactly when the index is not 0, and that row is for the plan at the same index |
| `Subscribe.Drawn` | packages/nextjs/pages/subscribe/index.tsx:69-93 | React draws at most one row per entry, and every drawn row is one of the entries |
| `Subscribe.Rows` | packages/nextjs/pages/subscribe/index.tsx:69-93 | nothing is drawn before the plans are loaded |
| `Subscribe.RowsAreAllButFirst` | packages/nextjs/pages/subscribe/index.tsx:69-93 | the table shows every plan except the one at index 0, in list order: one row fewer than there are plans, and row k is plan k + 1 |
| `Subscribe.RowsSkipOnlyTheFirst` | packages/nextjs/pages/subscribe/index.tsx:70-72 | every plan after index 0 appears in the table, and the plan at index 0 appears only if it is repeated later in the list |
| `Subscribe.AttemptEffects` | packages/nextjs/pages/subscribe/index.tsx:36-47 | at most three effects; none exactly when the plan id is missing or empty; a purchase call only for a connected user and with the plan's id; an error toast only for a user who is not connected |
| `Subscribe.AttemptOutcome` | packages/nextjs/pages/subscribe/index.tsx:36-47 | an attempt adds one purchase call exactly when the plan id is non-empty and the user is connected, one error toast exactly when the id is non-empty and the user is not, and nothing otherwise |
| `Subscribe.LoadingToastDismissedAfterCall` | packages/nextjs/pages/subscribe/index.tsx:42-45 | a connected attempt opens a loading toast, calls purchase once with `(planId, price, paymentTokenAddress)`, and dismisses that same toast right after |
| `Subscribe.SubscribePage.constructor` | packages/nextjs/pages/subscribe/index.tsx:23 | no plans loaded and no effects yet |
| `Subscribe.SubscribePage.FetchPlans` | packages/nextjs/pages/subscribe/index.tsx:25-34 | plans are fetched only when the session has a contract handle, and are then the mapped plan list |
| `Subscribe.SubscribePage.HandleOnPurchaseAttempt` | packages/nextjs/pages/subscribe/index.tsx:36-47 | appends exactly the attempt's effects to the log |
| `Subscribe.SubscribePage.ClickBuy` | packages/nextjs/pages/subscribe/index.tsx:84-87 | the button of table row k attempts to buy plan k + 1, so the plan at index 0 is never offered |
| `RobotsContext.FetchError` | packages/nextjs/context/RobotsContext.tsx:27-47 | no error exactly for status 200; a status outside 2xx gives the prefix and axios's `AxiosError: Request failed with status code <status>`; another 2xx status gives `An error occurred!\nError: Failed to fetch robots.txt. Status code: <status>`; a thrown error gives the prefix and its text |
| `RobotsContext.StatusRecoverable` | packages/nextjs/context/RobotsContext.tsx:40-46 | for every status but 200, the status code reads back from the end of the rejection message, after the axios text or the code's own text |
| `RobotsContext.NotFoundRejectedByAxios` | packages/nextjs/context/RobotsContext.tsx:27-46 | a 404 is rejected with the axios message, not with the code's status message |
| `RobotsContext.RobotsProvider.constructor` | packages/nextjs/context/RobotsContext.tsx:23 | nothing fetched initially |
| `RobotsContext.RobotsProvider.GetRobotsTxt` | packages/nextjs/context/RobotsContext.tsx:25-48 | status 200 stores the body and is the only way to resolve; every other outcome rejects with the message `FetchError` gives, which starts with the `An error occurred!\n` prefix, and leaves the stored text unchanged |

## Left out

- JSX rendering, CSS class selection, spinners and the error caption under the website field are not modelled. Only the text of the table cells and the visibility of the Submit button are.
- The Web3Auth and ethers calls (`initModal`, `connect`, `getUserInfo`, `getSigner`/`getAddress`, `getAllPlans`, `logout`) are inputs. The constructors `Web3Provider`, `JsonRpcProvider` and `Contract` are taken never to throw.
- `Web3AuthContext.Web3AuthProvider.GetPlans`: takes the result of `getAllPlans()`, so a rejected `getAllPlans()` call is not modelled.
- `purchasePlan` is recorded as an effect. The session context does not define it, so the real call would throw before the loading toast is dismissed, and the model does not capture that.
- `getOrders` and `packages/nextjs/pages/nevermined/index.tsx` are not modelled: they are Nevermined SDK set-up, login and logging.
- `packages/nextjs/components/robots-txt/RobotsTxtDisplay.tsx` is not modelled. It is browser I/O (blob download, clipboard), and it reads a `rewrittenRobots` field that the robots context never defines.
- RobotsContext.FetchError: the rejection of a status outside 2xx follows axios's default `validateStatus` and the text its `AxiosError` renders as; axios itself is not part of this model, so a configuration that changes either is not captured.
- In `getRobotsTxt`, the axios transport, the ngrok header, the request URL built from the `url` argument and `console.error` logging are not modelled. The outcome of the request is the input.
- Next.js router navigation after submit is not modelled.
- The toast library is not modelled. Toasts are recorded as emitted effects, and the loading toast's id is an input.
- `Number(...)` conversions are not modelled. The form's price is a natural, and a purchase records the plan's `price` field as it is, not converted to a floating-point number.
- On-chain integers are naturals. BigNumber internals are not modelled.
- `context/Types.ts` is not part of this model. The `Plan` and `Order` shapes come from how the pages use them. The token addresses, including the KIT address the form starts with, are taken from the subscribe page's token table (packages/nextjs/pages/subscribe/index.tsx:13-19).
- Strings are sequences of Unicode scalar values, not UTF-16 code units. The URL check therefore differs from JavaScript on characters outside the Basic Multilingual Plane, which JavaScript sees as two code units.
- Concurrency is not modelled: overlapping connect or disconnect calls, and the stale `state` read by closures.

# Meta Pixel tracking and signup-form rules of blinkly-front

This project models the analytics core of the blinkly-front web client, a
URL-shortening product, and proves properties of the model in Dafny.

- **The `useMetaPixel` hook.** `trackEvent` turns a `TrackOptions` record
  (event, optional user data, optional custom data, optional event id) into at
  most one call `fbq('track', event, params[, {eventID}])`.
  - Each truthy user-data field goes out under its short key: email→`em`,
    phone→`ph`, firstName→`fn`, lastName→`ln`, city→`ct`, state→`st`,
    zip→`zp`. `country` and `external_id` keep their names. `fbc` and `fbp`
    are never copied.
  - With a truthy event id, only these user parameters go out, and the id is
    passed as `eventID`.
  - Without one, the user parameters are merged with the enriched custom data,
    and the custom data wins on a shared key.
  - Nothing is sent when `window.fbq` is absent.
  - The twelve convenience functions (`trackRegistration` … `trackDonate`)
    build fixed `TrackOptions`.
  - Each mounted hook instance has its own route effect. It sends one enriched
    PageView to the shared pixel when it mounts and each time the pathname
    changes while it stays mounted.
- **The signup form.** It covers:
  - the phone number sent to registration: the country code followed by the
    digits of the number;
  - the field-interaction gate: a value longer than three characters;
  - the `isSubmitting` flag, which is raised at submit and lowered only on
    failure;
  - the error-message fallback;
  - the submit button's click guard;
  - the payloads of the field-interaction, submit, failure and button-click
    events.

Layout:
- `wrappers.dfy`: `Option`, for JavaScript values that may be `undefined`.
- `meta_pixel.dfy` (module `MetaPixel`): the payload types. It also holds the
  user-parameter mapping (`UserParams`, built field by field by
  `BuildUserParams`), the outgoing call (`Outgoing`), and two classes.
  - `Pixel` is shared by all hook instances. It has the `available` flag, the
    `sent` log of pixel calls and the enrichment `enhance`. Its method is
    `TrackEvent`.
  - `RouteEffect` is the route effect of one hook instance. It holds the shared
    `Pixel` and the pathname the effect last ran for. Its method is `OnRender`.
- `convenience.dfy` (module `Convenience`): the twelve convenience functions,
  as one datatype of calls and the function `Build`, with lemmas about them.
- `signup.dfy` (module `Signup`): the digit filter, the error message, the
  event payloads, and the class `SignupForm` (its `isSubmitting` flag and the
  pixel it reports to).

Modelling choices:
- JavaScript values are `Value`s: `Str`, `Num`, `Bool`, `StrList` and
  `Undefined`.
  - Numbers are carried as exact reals, and no arithmetic is done on them.
  - An omitted optional number written into an object literal (`{ value }`)
    still creates the key, with value `Undefined`. Object spread copies it.
- An omitted argument is `None`.
  - A default parameter (`currency = 'USD'`) replaces only `None`.
  - `x || d` also replaces the empty string.
- `enhanceEventData` is the `const enhance` of a `Pixel`: a fixed function of
  the custom data. Its dependence on the current page and on cookies is not
  modelled.
  - The model does not assume that caller keys win, or that no keys are
    invented.
  - So every statement about custom data is a statement about what is handed
    to `enhance`.

Behaviour of the code that the model keeps:
- No convenience function passes an event id, so every convenience call takes
  the merge path (`ConvenienceCallsMerge`). The deduplication path is reachable
  only through `trackEvent` itself.
- On the merge path, a key that the enriched custom data also holds overrides
  a user parameter. For example, a custom `em` replaces the email. A mapped
  user field therefore reaches the outgoing call unchanged only when the
  enrichment does not return that key (`Outgoing`).
- The route effect of a hook instance fires on the first render after its
  component mounts, because its dependency changes from nothing to the
  first pathname. It calls `fbq` directly, with
  the enriched `{content_name: pathname, content_type: 'page_view'}` and no
  user parameters and no `eventID`. It does not go through `trackEvent`.
- The enrichment is applied to the custom data even on the deduplication
  path (`src/hooks/useMetaPixel.tsx:112`), but its result is not sent.

## Model

| member | source | states |
|---|---|---|
| `MetaPixel.UserParams` | src/hooks/useMetaPixel.tsx:99-109 | a mapped user-data field's short key is present exactly when the user data is present and the field is truthy, and then it carries the field's own value; every key is one of the nine short keys, so `fbc`, `fbp` and empty or absent fields produce no key |
| `MetaPixel.CollectSpec` | src/hooks/useMetaPixel.tsx:99-109 | taking the fields in order, with each truthy mapped field setting its key, sets exactly the keys of the truthy fields taken, with their values, and no other key |
| `MetaPixel.ShortKeyInjective` | src/hooks/useMetaPixel.tsx:100-108 | no two user-data fields share an outgoing key, so no field's value overwrites another's |
| `MetaPixel.AddUserParam` | src/hooks/useMetaPixel.tsx:100-108 | one `if (userData.x) params.k = userData.x` line extends the parameters of the fields before it to those fields plus this one |
| `MetaPixel.BuildUserParams` | src/hooks/useMetaPixel.tsx:96-109 | the dictionary built field by field in the source's order equals `UserParams` |
| `MetaPixel.Outgoing` | src/hooks/useMetaPixel.tsx:112-119 | the event passes through unchanged. An `eventID` is sent exactly when the event id is truthy, and then only the user parameters go out. Otherwise the keys are the union of the user keys and the enriched custom keys, an enriched value wins on a shared key, and a user value stays where the enrichment has no such key |
| `MetaPixel.Pixel.Emitted` | src/hooks/useMetaPixel.tsx:95-124 | one `trackEvent` makes exactly one pixel call when the pixel is present and none when it is absent |
| `MetaPixel.Pixel.TrackEvent` | src/hooks/useMetaPixel.tsx:94-125 | the log grows by the `Outgoing` call when the pixel is present; when it is absent, the log is unchanged |
| `MetaPixel.PageViewDataNamesPath` | src/hooks/useMetaPixel.tsx:82-85 | the page-view data has exactly `content_name` and `content_type` = 'page_view', and two page views carry the same data exactly when their paths are equal |
| `MetaPixel.PageViews` | src/hooks/useMetaPixel.tsx:75-91 | a run of renders fires at most one page view per render |
| `MetaPixel.PageViewsSnoc` | src/hooks/useMetaPixel.tsx:75-91 | one more render adds exactly one page view (for its path) when the pathname changed, and none when it did not |
| `MetaPixel.PageViewsNoRepeat` | src/hooks/useMetaPixel.tsx:91 | per hook instance: two consecutive page views of one instance's effect are never for the same path, and the first differs from the path before the run |
| `MetaPixel.RouteEffect.constructor` | src/hooks/useMetaPixel.tsx:75-91 | a newly mounted hook instance's effect has run for no path yet and reports to the shared pixel, so its first render fires a page view |
| `MetaPixel.RouteEffect.OnRender` | src/hooks/useMetaPixel.tsx:75-91 | one hook instance's effect records the pathname. When the pathname changed and the pixel is present, it sends exactly one PageView whose params are the enrichment of the page-view data, and no `eventID`. The recorded page views stay equal to `PageViews` of all renders so far |
| `Convenience.Build` | src/hooks/useMetaPixel.tsx:128-265 | every convenience call passes custom data and no event id, and it passes user data exactly for `trackRegistration` and `trackLogin`, which pass the caller's own |
| `Convenience.Send` | src/hooks/useMetaPixel.tsx:128-265 | a convenience function makes the same pixel calls as `trackEvent` on its options |
| `Convenience.ConvenienceCallsMerge` | src/hooks/useMetaPixel.tsx:115-118 | for every convenience call, the outgoing call has no `eventID` and merges the user parameters with the enriched custom data. Without user data it is the enriched custom data alone |
| `Convenience.EventIdentifiesFunction` | src/hooks/useMetaPixel.tsx:128-265 | two convenience calls with the same event come from the same function: the twelve functions send twelve distinct events |
| `Convenience.RegistrationCallerWins` | src/hooks/useMetaPixel.tsx:128-138 | `trackRegistration` sends CompleteRegistration. Its keys are `content_name`, `status` and the caller's keys. Each caller key keeps the caller's value, and 'registration' and 'success' remain only where the caller did not supply those keys |
| `Convenience.LoginDataFixed` | src/hooks/useMetaPixel.tsx:140-149 | `trackLogin` sends Lead with the same custom data for every user: `content_name` 'login', `status` 'success' |
| `Convenience.CurrencyDefaulting` | src/hooks/useMetaPixel.tsx:151-265 | `trackSubscription`, `trackPaymentInfo`, `trackCheckout` and `trackDonate` send the given currency, or 'USD' when it is omitted. `trackPurchase` and `trackAddToWishlist` send 'USD' also for an empty currency. The remaining functions send no currency, unless a registration caller supplies one |
| `Convenience.EmptyCurrencyDiffers` | src/hooks/useMetaPixel.tsx:151-219 | an empty currency string is sent as '' by `trackSubscription` but becomes 'USD' in `trackPurchase` |
| `Convenience.PurchaseNamesOrder` | src/hooks/useMetaPixel.tsx:205-222 | `trackPurchase`'s content name starts with "Order #" and the rest is the order id, so two purchases get the same name exactly when their order ids are equal |
| `Convenience.DonateNamesCampaign` | src/hooks/useMetaPixel.tsx:256-265 | `trackDonate` names the campaign when it is truthy and 'donation' otherwise, and it sends the amount as `value` |
| `Convenience.WishlistListsProduct` | src/hooks/useMetaPixel.tsx:244-254 | `trackAddToWishlist` sends exactly `[product.id]` as content ids and the product's name |
| `Convenience.LinkCreationQuantity` | src/hooks/useMetaPixel.tsx:163-171 | `trackLinkCreation` counts the given quantity, or 1 when it is omitted |
| `Convenience.OptionalNumbersKeepKeys` | src/hooks/useMetaPixel.tsx:151-232 | for `trackSubscription`, `trackPaymentInfo`, `trackCheckout` and `trackTrialStart`, the set of custom keys does not depend on which optional numbers are given |
| `Convenience.PurchaseExample` | src/hooks/useMetaPixel.tsx:205-222 | `trackPurchase({orderId: "123", items: 2, value: 49.99})` sends Purchase with content name "Order #123", 2 items, value 49.99 and currency 'USD' |
| `Convenience.SubscriptionExample` | src/hooks/useMetaPixel.tsx:151-161 | `trackSubscription("pro", 20)` sends Subscribe with plan name "pro", plan value 20 and currency 'USD' |
| `Signup.Digits` | src/components/signup/SignupForm.tsx:86 | removing the non-digits leaves only '0'..'9' and never lengthens the string |
| `Signup.DigitsAppend` | src/components/signup/SignupForm.tsx:86 | filtering distributes over concatenation, so the digits keep their order |
| `Signup.DigitsCounts` | src/components/signup/SignupForm.tsx:86 | every digit occurs in the result as often as in the input, and no other character occurs |
| `Signup.DigitsOfDigits` | src/components/signup/SignupForm.tsx:86 | a string of digits only is left unchanged |
| `Signup.DigitsIdempotent` | src/components/signup/SignupForm.tsx:86 | filtering twice is filtering once |
| `Signup.FormatPhone` | src/components/signup/SignupForm.tsx:86 | the formatted phone starts with the country code, everything after it is a digit, and it is no longer than code and number together |
| `Signup.FormatPhoneKeepsDigits` | src/components/signup/SignupForm.tsx:86 | the part after the country code is the digits of the number, with each digit's multiplicity, and no non-digit |
| `Signup.ErrorMessage` | src/components/signup/SignupForm.tsx:121-122 | the shown message is the server's message when that is present and not empty. Otherwise it is "Registration failed. Please try again.". It is never empty |
| `Signup.FieldGateIsLength` | src/components/signup/SignupForm.tsx:47 | a field interaction is reported exactly when the value is longer than three characters |
| `Signup.FieldChangePayload` | src/components/signup/SignupForm.tsx:46-57 | a reported interaction is CustomizeProduct whose custom data has exactly the keys `content_name` = 'signup_field_interaction', `field_name` = the field, `has_value` = true and `status` = 'in_progress', with no user data and no event id |
| `Signup.ChangeHandlerReports` | src/components/signup/SignupForm.tsx:46-57 | a change handler that reads the typed value reports exactly one interaction when that value is longer than three characters, and none otherwise |
| `Signup.MountHandlerIgnoresTyping` | src/components/signup/SignupForm.tsx:72-77 | the handlers registered at mount report nothing, whatever is typed, because they read the empty default captured at mount |
| `Signup.SubmitSendsNoPhone` | src/components/signup/SignupForm.tsx:89-102 | the submit event identifies the user only by `em`, `fn`, `ln` and `country`, and never sends the phone |
| `Signup.FailureReportsShownMessage` | src/components/signup/SignupForm.tsx:121-138 | the failure event is Lead with `status` 'failed' and `error_message` = the shown message. Its user parameters are just `em`, or none when the email is empty |
| `Signup.SignupForm.constructor` | src/components/signup/SignupForm.tsx:23 | the form starts with `isSubmitting` false |
| `Signup.SignupForm.TrackFieldChange` | src/components/signup/SignupForm.tsx:46-58 | the pixel receives exactly the interactions `ChangeHandlerReports` gives for the value (one CustomizeProduct when it is longer than three characters), and only when the pixel is present; otherwise nothing is sent |
| `Signup.SignupForm.HandleSubmit` | src/components/signup/SignupForm.tsx:81-143 | `register` receives the form's values with the formatted phone. The flag is raised and stays raised after success, and is lowered after failure. The submit event is sent first, then, only on failure, the failure event carrying the shown message |
| `Signup.SignupForm.ClickSubmitButton` | src/components/signup/SignupForm.tsx:174-186 | a click sends the InitiateCheckout 'signup_button_click' event only while `isSubmitting` is false |

## Findings

| source | as written | input that shows it | evidently intended | confidence | as-written member | corrected member |
|---|---|---|---|---|---|---|
| src/components/signup/SignupForm.tsx:72-77 | each field's change handler is registered once at mount and is given the value `form.watch` returned then (the empty default), so `trackFieldChange` always sees '' | type "alice@example.com" into the email field: no CustomizeProduct event is sent | report on the value being typed, so that values longer than three characters are reported | medium, not executed (react-hook-form's handling of the extra `onChange` option is outside this model) | `Signup.MountHandlerIgnoresTyping` | `Signup.ChangeHandlerReports` |

## Left out

- `enhanceEventData`, `getFacebookBrowserId` and `getFacebookClickId`
  (`@/utils/metaPixelUtils`) are not part of this model. The enrichment is a
  fixed function of the custom data. Its dependence on the current page and on
  cookies, which change between calls, is not modelled. The browser and click ids that the route effect reads at
  src/hooks/useMetaPixel.tsx:78-79 are unused there, so they are not modelled.
- `Convenience.ConvenienceCallsMerge`: shows only that custom data is handed
  to the enrichment. Whether any caller key reaches the pixel depends on the
  enrichment, which is not modelled.
- `MetaPixel.Outgoing`: states the properties of outgoing user keys with the
  proviso "unless the enrichment returns that key", because the enrichment is
  not modelled.
- The pixel's own behaviour behind `window.fbq` (queueing, network), the
  `typeof window` test (folded into `available`), `console.log`, and
  `toast.error` are not modelled. The toast is modelled only as the message
  `HandleSubmit` returns.
- React semantics are not modelled: `useCallback` memoisation, `useState`
  initialisers, and effect scheduling. The route effect is modelled as running
  after each render, with the pathname as its only dependency.
- Mounting and unmounting of the components that call `useMetaPixel()`
  (src/components/signup/SignupForm.tsx:22, src/pages/Pricing.tsx) are not
  modelled. Each mount is a new `RouteEffect` on the shared `Pixel`. So the
  pixel's log interleaves the page views of all mounted instances: it can hold
  the same path twice in a row after a remount. It gets no page view for a
  navigation while no instance is mounted. The signup form's own instance and
  the PageView it sends at mount are not part of `SignupForm`.
- The mount-time block of the signup form (src/components/signup/SignupForm.tsx:61-79)
  is not modelled. This covers its ViewContent event and its field
  registration through react-hook-form. The only exception is the captured
  value, listed under Findings.
- `Signup.SignupForm.HandleSubmit`: runs the handler to its end, with the
  outcome of `register` as a parameter. The window while `register` is pending
  is not a separate state. So a click in that window is not modelled, though
  the flag is then raised and `ClickSubmitButton` would send nothing. The
  redirect after success is not modelled either.
- `Signup.ErrorMessage`: the server message (`error.response?.data?.message`)
  is taken to be a string when present. A truthy value of another type, such
  as an array of messages, would be shown and sent as it is. That case is not
  modelled.
- Schema validation of the form (SignupSchema), the form field components and
  rendering are not modelled.
- Numbers are exact reals with no arithmetic. Floating-point representation is
  not modelled.
- src/services/authService.ts (HTTP client and local storage), src/pages/Pricing.tsx
  (rendering and constant tracking payloads) and vite.config.ts (build
  configuration) are not part of this model.

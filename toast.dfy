/** The toast notifications of the frontend: the style of each variant, the list of
    visible toasts (newest first, at most five) and the table of pending dismissal
    timers. Timer ids and toast ids come from the browser and the clock, so the
    operations take them as parameters; a timer firing is the `Expire` event. */
module Toasts {
  import opened Common

  const MaxToasts: nat := 5
  const DefaultVariant: string := "info"
  const DefaultDurationMs: int := 3500

  /** The two class strings a toast is drawn with. */
  datatype VariantStyle = VariantStyle(container: string, accent: string)

  const SuccessStyle: VariantStyle := VariantStyle("border-emerald-200 bg-emerald-50 text-emerald-950", "bg-emerald-500")
  const ErrorStyle: VariantStyle := VariantStyle("border-red-200 bg-red-50 text-red-950", "bg-red-500")
  const InfoStyle: VariantStyle := VariantStyle("border-sky-200 bg-sky-50 text-sky-950", "bg-sky-500")

  /** `variantClasses`: success and error have their own styles, every other value
      falls to the info style. */
  function VariantClasses(variant: string): (r: VariantStyle)
    ensures r == SuccessStyle <==> variant == "success"
    ensures r == ErrorStyle <==> variant == "error"
    ensures r == InfoStyle <==> variant != "success" && variant != "error"
  {
    if variant == "success" then SuccessStyle
    else if variant == "error" then ErrorStyle
    else InfoStyle
  }

  /** What a caller passes to `toast`; the optional fields may be left out. */
  datatype ToastInput = ToastInput(title: string, description: Option<string>, variant: Option<string>, durationMs: Option<int>)

  datatype ToastItem = ToastItem(id: string, title: string, description: Option<string>, variant: string)

  /** The item `toast` shows for `input` under `id`: the variant defaults to info. */
  function ItemFor(input: ToastInput, id: string): (t: ToastItem)
    ensures t.id == id && t.title == input.title && t.description == input.description
    ensures input.variant.None? ==> t.variant == DefaultVariant
    ensures input.variant.Some? ==> t.variant == input.variant.value
  {
    ToastItem(id, input.title, input.description, Coalesce(input.variant, DefaultVariant))
  }

  /** The dismissal delay `toast` schedules: 3500 ms unless the input gives one. */
  function DurationFor(input: ToastInput): (d: int)
    ensures input.durationMs.None? ==> d == DefaultDurationMs
    ensures input.durationMs.Some? ==> d == input.durationMs.value
  {
    Coalesce(input.durationMs, DefaultDurationMs)
  }

  /** `[item, ...prev].slice(0, 5)`. */
  function Prepended(items: seq<ToastItem>, item: ToastItem): (r: seq<ToastItem>)
    ensures |r| == if |items| < MaxToasts then |items| + 1 else MaxToasts
    ensures r[0] == item
    ensures forall i :: 1 <= i < |r| ==> r[i] == items[i - 1]
  {
    ([item] + items)[..if |items| < MaxToasts then |items| + 1 else MaxToasts]
  }

  /** `prev.filter((t) => t.id !== id)`. */
  function WithoutId(items: seq<ToastItem>, id: string): (r: seq<ToastItem>)
    ensures forall t :: t in r <==> t in items && t.id != id
    ensures |r| <= |items|
  {
    if |items| == 0 then []
    else if items[0].id == id then WithoutId(items[1..], id)
    else [items[0]] + WithoutId(items[1..], id)
  }

  /** Removing distributes over concatenation, so the kept toasts stay in their
      order. */
  lemma {:induction false} WithoutIdAppend(a: seq<ToastItem>, b: seq<ToastItem>, id: string)
    ensures WithoutId(a + b, id) == WithoutId(a, id) + WithoutId(b, id)
    decreases |a|
  {
    if |a| == 0 {
      assert a + b == b;
    } else {
      assert (a + b)[0] == a[0];
      assert (a + b)[1..] == a[1..] + b;
      WithoutIdAppend(a[1..], b, id);
    }
  }

  /** An id no toast carries leaves the list as it is. */
  lemma {:induction false} WithoutAbsentId(items: seq<ToastItem>, id: string)
    requires forall i :: 0 <= i < |items| ==> items[i].id != id
    ensures WithoutId(items, id) == items
    decreases |items|
  {
    if |items| > 0 {
      WithoutAbsentId(items[1..], id);
    }
  }

  /** A dismissal the browser will run: after `delayMs`, `remove(toastId)`. */
  datatype PendingRemoval = PendingRemoval(toastId: string, delayMs: int)

  /** The provider's state: the visible toasts, the `timers` map from toast id to
      timer id, and the browser's table of scheduled timers. */
  class ToastProvider {
    var items: seq<ToastItem>
    var timers: map<string, int>
    var scheduled: map<int, PendingRemoval>

    /** At most five toasts are visible, each has a timer entry, and each entry names
        a scheduled timer that dismisses that very toast. */
    ghost predicate Valid()
      reads this
    {
      && |items| <= MaxToasts
      && (forall i :: 0 <= i < |items| ==> items[i].id in timers)
      && (forall id :: id in timers ==> timers[id] in scheduled && scheduled[timers[id]].toastId == id)
    }

    constructor ()
      ensures Valid() && items == [] && timers == map[] && scheduled == map[]
    {
      items := [];
      timers := map[];
      scheduled := map[];
    }

    /** `toast(input)` under toast id `id`; `timer` is what `setTimeout` returns, an id
        no scheduled timer has. */
    method Toast(input: ToastInput, id: string, timer: int)
      requires Valid()
      requires timer !in scheduled
      modifies this
      ensures Valid()
      ensures items == Prepended(old(items), ItemFor(input, id))
      ensures timers == old(timers)[id := timer]
      ensures scheduled == old(scheduled)[timer := PendingRemoval(id, DurationFor(input))]
    {
      items := Prepended(items, ItemFor(input, id));
      scheduled := scheduled[timer := PendingRemoval(id, DurationFor(input))];
      timers := timers[id := timer];
    }

    /** `remove(id)`: the toasts with that id go, its timer is cleared when it is a
        truthy id, and its entry is deleted. */
    method Remove(id: string)
      requires Valid()
      modifies this
      ensures Valid()
      ensures items == WithoutId(old(items), id)
      ensures timers == old(timers) - {id}
      ensures scheduled == if id in old(timers) && old(timers)[id] != 0 then old(scheduled) - {old(timers)[id]} else old(scheduled)
    {
      items := WithoutId(items, id);
      if id in timers && timers[id] != 0 {
        scheduled := scheduled - {timers[id]};
      }
      timers := timers - {id};
    }

    /** The scheduled timer `timer` fires: the browser drops it and runs its
        `remove`. Dropping it after the `remove` ends in the same state, since that
        `remove` can only clear this timer or another of the same toast. */
    method Expire(timer: int)
      requires Valid() && timer in scheduled
      modifies this
      ensures Valid()
      ensures items == WithoutId(old(items), old(scheduled)[timer].toastId)
      ensures timers == old(timers) - {old(scheduled)[timer].toastId}
      ensures var id := old(scheduled)[timer].toastId;
        scheduled == (if id in old(timers) && old(timers)[id] != 0 then old(scheduled) - {old(timers)[id]} else old(scheduled)) - {timer}
    {
      var id := scheduled[timer].toastId;
      Remove(id);
      scheduled := scheduled - {timer};
    }
  }

  /** A context value: the provider's `toast` function. */
  datatype ToastContext = ToastContext

  const OutsideProviderMessage: string := "useToast must be used within ToastProvider"

  /** `useToast()`: outside a provider the context is `null` and the hook throws. */
  function UseToast(ctx: Option<ToastContext>): (r: Result<ToastContext, Exception>)
    ensures r.Ok? <==> ctx.Some?
    ensures r.Err? ==> r.error == Error(OutsideProviderMessage)
  {
    if ctx.None? then Err(Error(OutsideProviderMessage)) else Ok(ctx.value)
  }
}

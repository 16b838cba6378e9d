# CoffeShop widgets: a verified model

The CoffeShop site is a single marketing page for a coffee shop. Only two of
its components hold logic, and this project models both in Dafny:

- **The testimonial carousel** (`src/components/Testemonials.jsx`). It holds
  `currentIndex` into a fixed list of three reviews and `isAutoPlaying`. While
  autoplay is on, an interval advances the index modulo the list length. The
  arrow buttons and the indicator dots move the index by hand and switch
  autoplay off, and nothing ever switches it back on. The displayed review
  decides how many stars are drawn and which source brand ("Google Reviews" or
  "Instagram") is shown.
- **The menu filter** (`src/components/Menu.jsx`). It holds the selected
  filter key (`"all"`, `"food"` or `"drink"`, initially `"all"`). The grid
  shows either all menu items or exactly those whose `type` equals the key, in
  their original order.

Files:

- `wrappers.dfy`: the `Option` type.
- `carousel.dfy`, module `Carousel`. The carousel is stated twice. On values,
  `CarouselState`, `Event`, `Step` and `Run` give the state machine over event
  sequences. The class `TestimonialsCarousel` has fields `currentIndex`,
  `autoPlaying` and `n`, and each of its methods is proved to change the
  state exactly as `Step` does. The lemmas about `Step` and `Run` are where the
  properties are proved.
- `menu.dfy`, module `Menu`. The filter is a pure function (`KeepKind`,
  `Visible`) with lemmas. The class `MenuWidget` holds the selection and
  updates it through `SetFilter`.

Both widgets take their records as constructor arguments. The site's fixed
lists are the functions `Carousel.Testimonials` and `Menu.MenuItems`, and
lemmas state what the logic needs of them. Long display strings in these
lists are written as concatenations of shorter literals; the values are the
source's.

A timer firing is an abstract event (`TimerFired`). It is enabled only while
autoplay is on, because the effect arms the interval only then and clears it
when the flag changes. A run in which the timer fires after autoplay went off
has no result (`None`).

## Model

| member | source | states |
|---|---|---|
| Carousel.Brand | src/components/Testemonials.jsx:49-52 | the `sourceIcons` lookup: defined exactly for "google" and "instagram"; the label is "Google Reviews" for google and "Instagram" for instagram, and the Google icon goes with google only |
| Carousel.StarKeys | src/components/Testemonials.jsx:161-170 | one star mark per rating point, keyed 0 to rating - 1 |
| Carousel.FixedTestimonialsRender | src/components/Testemonials.jsx:16-47 | the built-in list has three reviews, each rated one to five stars, and each with a source the brand table knows |
| Carousel.Advance | src/components/Testemonials.jsx:58 | `(prev + 1) % n` stays below n; it is prev + 1, except that the last index wraps to 0 |
| Carousel.Retreat | src/components/Testemonials.jsx:71 | `(prev - 1 + n) % n` stays below n; it is prev - 1, except that index 0 wraps to n - 1 |
| Carousel.AdvanceRetreatInverse | src/components/Testemonials.jsx:58-71 | going forward then back, or back then forward, gives the starting index |
| Carousel.AdvanceTimes | src/components/Testemonials.jsx:57-59 | any number of timer advances keeps the index below n |
| Carousel.AdvanceTimesMod | src/components/Testemonials.jsx:57-59 | k advances from index i give `(i + k) % n` |
| Carousel.FullCycle | src/components/Testemonials.jsx:57-59 | n advances from any index return to it |
| Carousel.Step | src/components/Testemonials.jsx:54-79 | one event keeps the index in bounds; autoplay stays on only after a timer firing from a state with autoplay on; timer and next give `(i + 1) % n`, prev gives `(i + n - 1) % n`, a dot gives its target |
| Carousel.Run | src/components/Testemonials.jsx:54-79 | after any sequence of events the index is still in bounds, so `testimonials[currentIndex]` is defined |
| Carousel.RunAutoplay | src/components/Testemonials.jsx:54-79 | after a run, autoplay is on exactly when it was on at the start and every event was a timer firing |
| Carousel.AutoplayNeverResumes | src/components/Testemonials.jsx:66-78 | once autoplay is off it stays off, whatever events follow |
| Carousel.TicksAdvanceTimes | src/components/Testemonials.jsx:54-62 | while autoplay is on, k timer firings move the index exactly as k calls of the interval's update `(prev + 1) % n` do, and leave autoplay on |
| Carousel.TicksAdvance | src/components/Testemonials.jsx:54-62 | while autoplay is on, k timer firings lead from index i to `(i + k) % n` and leave autoplay on |
| Carousel.TicksFullCycle | src/components/Testemonials.jsx:54-62 | n timer firings return to the starting state |
| Carousel.PrevThenNext | src/components/Testemonials.jsx:64-74 | "previous" then "next" restores the index, with autoplay off |
| Carousel.NextThenPrev | src/components/Testemonials.jsx:64-74 | "next" then "previous" restores the index, with autoplay off |
| Carousel.DotTargets | src/components/Testemonials.jsx:240-243 | one dot per review; dot i jumps to review i |
| Carousel.DotsAlwaysEnabled | src/components/Testemonials.jsx:240-243 | every dot's target is a valid index, so `goToTestimonial` is only called in bounds |
| Carousel.ThreeReviewScenario | src/components/Testemonials.jsx:54-79 | with three reviews from the initial state: a timer firing gives index 1; "previous" gives index 0 with autoplay off; dot 3 gives index 2; after that the timer cannot fire; `Carousel.WidgetScenario` drives the same steps through the class's methods |
| Carousel.TestimonialsCarousel.constructor | src/components/Testemonials.jsx:13-14 | the widget starts at index 0 with autoplay on |
| Carousel.TestimonialsCarousel.Tick | src/components/Testemonials.jsx:54-62 | the interval callback runs only while autoplay is on; it advances the index as `Step` does and leaves autoplay on |
| Carousel.TestimonialsCarousel.Next | src/components/Testemonials.jsx:64-67 | `nextTestimonial` advances the index and switches autoplay off, as `Step` does |
| Carousel.TestimonialsCarousel.Prev | src/components/Testemonials.jsx:69-74 | `prevTestimonial` steps the index back with wrap-around and switches autoplay off, as `Step` does |
| Carousel.TestimonialsCarousel.GoTo | src/components/Testemonials.jsx:76-79 | `goToTestimonial(index)` sets the index and switches autoplay off, for an index inside the list |
| Carousel.TestimonialsCarousel.Current | src/components/Testemonials.jsx:180-215 | the review on display is one of the widget's reviews |
| Carousel.TestimonialsCarousel.StarCount | src/components/Testemonials.jsx:161 | the number of stars drawn equals the displayed review's rating |
| Menu.CategoryOfKey | src/components/Menu.jsx:113-117 | a key string names a category exactly when it is one of the category keys, and then that category's key is the string |
| Menu.KeyRoundTrip | src/components/Menu.jsx:113-117 | each category's key names that category again |
| Menu.ButtonIndex | src/components/Menu.jsx:113-117 | each category has a button whose key is the category's key |
| Menu.ButtonsMatchCategories | src/components/Menu.jsx:200-217 | every button hands `setFilter` a valid key, and for any selection exactly one button is highlighted |
| Menu.KeepKind | src/components/Menu.jsx:111 | `menuItems.filter(item => item.type === kind)` keeps only items of that type, in their order (a subsequence), and as many as the list holds |
| Menu.Visible | src/components/Menu.jsx:108-111 | `filteredItems`: for "all" the items unchanged and in order; otherwise a subsequence of matching items, all of them |
| Menu.KeepKindUnique | src/components/Menu.jsx:111 | any order-preserving selection of items of one type that misses none of them equals the filter's result |
| Menu.KeepKindMultiset | src/components/Menu.jsx:111 | per item value, the filter keeps every copy if the item has the type and none otherwise |
| Menu.FoodDrinkPartition | src/components/Menu.jsx:108-111 | when every type is food or drink, the food and drink views have lengths summing to the list's, together hold each item once, and share no item |
| Menu.FixedMenuSplits | src/components/Menu.jsx:8-65 | the seven built-in items are all food or drink, so the food and drink views split the menu |
| Menu.AlternatingMenuScenario | src/components/Menu.jsx:108-111 | for items tagged food, drink, food, drink: the drink view is the 2nd and 4th item, the food view the 1st and 3rd, "all" the four in order; `Menu.WidgetScenario` does the same through `MenuWidget` |
| Menu.TypeBadge | src/components/Menu.jsx:261-269 | the badge reads the drink label exactly when `type == "drink"` and the food label otherwise |
| Menu.Grid | src/components/Menu.jsx:233-269 | one card per visible item, in order; each card is its item's name, description, price and image; it has the featured star exactly when its item is featured, the drink badge exactly when its item is a drink and the food badge otherwise |
| Menu.MenuWidget.constructor | src/components/Menu.jsx:5-6 | the selected filter starts as "all" |
| Menu.MenuWidget.SetFilter | src/components/Menu.jsx:210 | `setFilter(key)` makes that key the selection |
| Menu.MenuWidget.FilteredItems | src/components/Menu.jsx:108-111 | the derived view of the widget's own items: unchanged for "all", otherwise a subsequence of items of the selected type that holds all of them |

## Left out

- Animation: all motion variants, springs, staggers, delays and floating effects in both files. They are presentational and float-valued.
- Real time: the 5000 ms period and the `setInterval`/`clearInterval` calls of the effect. A timer firing is the abstract `TimerFired` event, enabled only while autoplay is on.
- Unmounting: the cleanup that clears the interval on teardown has no counterpart, since the model has no lifecycle beyond the widget object.
- CSS classes, the icon components and the colour classes are kept only as data (`Icon`, `ButtonIcon`, `SourceBrand.color`); how they are drawn is not modelled.
- The "Add to Order" and "View Full Menu" buttons have no handlers in the source and are not modelled. The social proof stats and the section headings are static markup.
- Carousel.TestimonialsCarousel.constructor: requires a non-empty list. With no reviews, `% 0` yields NaN and rendering `testimonials[currentIndex].rating` fails; the site always has three reviews.
- Carousel.TestimonialsCarousel.Current: states only that the review on display belongs to the list; which one it is follows from `currentIndex`, which the other members state.
- JavaScript numbers are doubles. The model uses unbounded integers, which agree with them here because indices stay below the list length.
- Hero, Features, Navbar, Contact, CTA, Footer and App: parallax and scroll handling, outbound links, and static markup. They are not part of this model.

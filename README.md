# ArcGIS Feature-Service output layer, modelled in Dafny

This project models the output layer of a Node.js adaptor (`agsoutput.js`).
The adaptor turns a pluggable geospatial data provider into ArcGIS
Feature-Service payloads:

- the server info, the service catalogue, a feature-service description and
  a layer description, each made by copying a JSON template (`_clone`) and
  filling in provider data;
- layer query results in one of three modes: a count, a list of ids, or a
  FeatureSet whose point geometries are reprojected to Web Mercator (wkid
  102100) on request;
- the HTML list of a layer's fields;
- the selector `o` that picks the JSON or the HTML builder from a format tag.

Modules, one per component of the source file:

- `JsValue` (jsvalue.dfy): JSON data as a datatype. It models JavaScript
  truthiness, property reads and writes as non-strict JavaScript does them
  (null throws a `TypeError`; a write to any other non-object is dropped),
  and `_clone`.
- `DataProvider` (provider.dfy): the provider as a record of pure functions.
  `serviceIds` is a sequence, because agsoutput.js:69 reads it as a property.
- `FieldsHtml` (fields_html.dfy): `getHtmlForFields`, as a loop proved
  against a recursive reference definition.
- `Mercator` (mercator.dfy): `coordToMercator`. The latitude clamp, the
  easting and the wkid tag are exact. The northing formula is left
  uninterpreted.
- `Metadata` (metadata.dfy): `infoJSON`, `servicesJSON`, `featureServiceJSON`
  and `featureServiceLayerJSON`.
- `QueryResult` (query.dfy): `featureServiceLayerQueryJSON`. Its feature mode
  is proved against the reference definition `FeatureSetSpec`.
- `FormatSelect` (format.dfy): the selector `o`.

Every failure the code can hit on the values the model expresses (JSON
templates, descriptors and features, and the provider's lists as sequences)
is modelled as a `TypeError` result, not excluded by a precondition. The
cases are:

- a falsy template, which `_clone` turns into null;
- a null server version (`toString`);
- a missing `services` array when there are service ids;
- a null field;
- a null FeatureSet template;
- a null or non-object feature, or a feature without a geometry, in the Web
  Mercator branch;
- a FeatureSet template without a spatial reference in the Web Mercator
  branch.

agsoutput.js:69 reads `dataProvider.serviceIds` as a property and takes its
`length`, so the model takes `serviceIds` as a given sequence.

## Model

| member | source | states |
|---|---|---|
| `JsValue.Clone` | agsoutput.js:22-27 | a truthy value comes back equal to itself (a deep copy of JSON data); null, false, 0 and "" come back as null |
| `FieldsHtml.GetHtmlForFields` | agsoutput.js:41-54 | succeeds exactly when no field is null; the text is the fragments of the fields in input order; an empty list gives "" |
| `FieldsHtml.FieldsTextAppend` | agsoutput.js:42-53 | the text for `fields + [f]` is the text for `fields` followed by the fragment for `f` |
| `FieldsHtml.FieldArgsOfFails` | agsoutput.js:45-51 | reading a field's properties fails exactly on a null field; the editable slot is always false |
| `FieldsHtml.EditableIgnored` | agsoutput.js:46-51 | a field's own `editable` property has no effect on its fragment, which always reports false |
| `Metadata.InfoJSON` | agsoutput.js:59-64 | fails exactly for a falsy template or a null version; otherwise the object template gets `currentVersion` = version and `fullVersion` = its text, and every other property is kept |
| `Metadata.ServicesJSON` | agsoutput.js:66-75 | sets `currentVersion`; `services` becomes the template's array followed by one descriptor per service id, in order; fails exactly for a falsy template, or when there are ids and no `services` array |
| `Metadata.FeatureServiceJSON` | agsoutput.js:77-87 | sets `currentVersion`; replaces `layers` with one descriptor per layer id of the service, in order; keeps every other property; fails exactly for a falsy template |
| `Metadata.FeatureServiceLayerJSON` | agsoutput.js:89-98 | fails exactly for a falsy template; otherwise, for an object template, overwrites exactly `currentVersion`, `name` (the service id), `layerId`, `displayField`, `objectIdField` and `fields` with provider data and keeps every other property; any other truthy template comes back unchanged |
| `Mercator.ClampLatitude` | agsoutput.js:109 | the result lies in [-89.99999, 89.99999]; it equals the input when the input is in range, and the nearer bound otherwise |
| `Mercator.CoordToMercator` | agsoutput.js:107-115 | the point is tagged wkid 102100; its northing is taken at a latitude inside the clamp range; longitude 0 gives easting 0 |
| `Mercator.LatitudeUnclampedInRange` | agsoutput.js:109-112 | a latitude already in range is projected as given |
| `Mercator.PoleClamping` | agsoutput.js:109-112 | every latitude at or beyond a bound projects exactly like the bound, so the pole (90) gives the point of 89.99999 |
| `Mercator.OriginProjectsToOrigin` | agsoutput.js:103-113 | (0, 0) projects to (0, 0) tagged 102100, given that the northing vanishes at the equator |
| `Mercator.NoPoleSingularity` | agsoutput.js:109-112 | for any sine strictly inside (-1, 1) on the clamped range, the quotient under the logarithm has a positive denominator and is positive, whatever the input latitude |
| `Mercator.ProjectGeometry` | agsoutput.js:107-115 | fails exactly for a missing or null geometry; otherwise gives a point tagged 102100, the projection of the coordinates when they are numbers |
| `QueryResult.ProjectFeature` | agsoutput.js:144-146 | fails exactly when the feature has no readable geometry; otherwise only `geometry` changes, to the projected geometry; every other property is kept |
| `QueryResult.ProjectFeatures` | agsoutput.js:140-147 | succeeds exactly when every feature is projectable; the output has the same length, and element i is feature i projected |
| `QueryResult.FeatureSetFor` | agsoutput.js:133-157 | the finished FeatureSet equals the reference definition `FeatureSetSpec` |
| `QueryResult.FeatureServiceLayerQueryJSON` | agsoutput.js:117-160 | a truthy `countOnly` gives exactly the provider's count, whatever `idsOnly` is; otherwise a truthy `idsOnly` gives exactly the id list; otherwise a FeatureSet as `FeatureSetSpec` defines it |
| `QueryResult.MercatorFeaturesOrderPreserved` | agsoutput.js:136-151 | with outSR 102100: `fields` is the provider's; output feature i is input feature i with only its geometry projected; the lengths are equal; other template properties are kept |
| `QueryResult.MercatorOutputTagged` | agsoutput.js:145-150 | with outSR 102100: every output geometry carries wkid 102100, and so does the FeatureSet's spatial reference when the template's `spatialReference` is an object (a write to a non-object one is dropped) |
| `QueryResult.FeaturesPassThrough` | agsoutput.js:136-155 | otherwise, for an object template: `features` is exactly the provider's list; `fields` is the provider's; the spatial reference and all other template properties are kept |
| `FormatSelect.Select` | agsoutput.js:263-265 | only the exact string "json" selects the structured builder; any other tag selects the markup builder; both get the same arguments |

## Left out

- Template loading (agsoutput.js:6-20) is file I/O and JSON parsing. Templates are given values. The count and ids templates it loads are never used by the code.
- The HTML renderers `htmlStringForEnvelope`, `infoHTML`, `servicesHTML`, `featureServiceHTML` and `featureServiceLayerHTML` (agsoutput.js:29-37, 175-259) fill template strings through `util.format`. Both the templates and the `%d`/`%s` coercions are outside the model. In `getHtmlForFields` the list-item substitution is the abstract function `fragment`.
- `dataProvidersHTML` (agsoutput.js:163-173) iterates with `for…in` over an object, in an order the engine defines, and calls URL builders of agsurls.js, which is not part of this model.
- The exported wrappers (agsoutput.js:267-293) are only glue. The query wrapper ignores its format argument.
- The provider's asynchronous query calls and the result callback are taken as a synchronous call and a returned value. A provider that never calls back, so that the query never completes, is not modelled.
- Mercator.CoordToMercator: the northing R/2 ln((1 + sin φ)/(1 − sin φ)) and double-precision rounding are not modelled. The northing is an uninterpreted function of the latitude in radians, and the easting is exact real arithmetic.
- Mercator.ProjectGeometry: the coordinates JavaScript computes for an `x` or `y` that is not a number are uninterpreted. Examples are NaN for a missing one, or a numeric string coerced to a number.
- Metadata.InfoJSON: `toString` on the version is an uninterpreted function `toText`. Only its failure on null is modelled.
- QueryResult.IsWebMercator covers only the number 102100 and the string "102100". Other values that JavaScript's `==` also equates with 102100 are not modelled, such as " 102100", "102100.0" or a one-element array.
- JsValue.Clone: JSON data is taken to contain no `undefined`, functions, NaN or infinities. So the round trip through JSON text is the identity. The loss of such values when provider data holds them is not modelled.
- Object property order (insertion order in JavaScript) is not modelled: objects are maps.
- A named-property write on an array changes no JSON value, and the model leaves the array as it was.
- The provider's lists (`serviceIds`, the result of `layerIds`, the features of a query) are sequences. A null or non-array value is not modelled: the code throws on a null one at agsoutput.js:70, 82 and 142, and iterates a string character by character.
- FieldsHtml.GetHtmlForFields takes the field list as a sequence. A non-array `fields` value, whose `length` JavaScript would read, is not modelled.
- Failures that JSON data cannot express are not modelled. Examples are a provider member that is missing or not a function, an `undefined` `serverVersion`, and a version whose own `toString` cannot be called (agsoutput.js:62). The `Provider` fields are total functions and values.

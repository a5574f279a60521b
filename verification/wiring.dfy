/**
 * A container-neutral picture of Spring bean definitions: the class to
 * instantiate, its ordered constructor arguments and its named properties.
 */
module Wiring {
  import opened Wrappers

  /** A value handed to a constructor argument or a property. */
  datatype Value =
    | Literal(text: Option<string>)      // a string value; None is Java's null
    | Reference(beanName: string)        // a `RuntimeBeanReference` / constructor-arg reference
    | Bean(definition: BeanDefinition)   // an inner bean definition
    | List(items: seq<Value>)            // a `ManagedList`

  datatype BeanDefinition = BeanDefinition(
    className: string,
    constructorArgs: seq<Value>,
    properties: map<string, Value>)
}

/** Two-line alerts shown by `Alert.alert(title, message)`; a one-argument call has message "". */
module Alerts {
  datatype Alert = Alert(title: string, message: string)
}
